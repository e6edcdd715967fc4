/**
  workspace/workspace.go and workspace/summary.go: guarded patches on a file map, the change log
  they produce, and the diff of two file maps. Path cleaning is the parameter clean.
 */
module Workspace {
  import opened Wrappers
  import opened Text

  type Files = map<string, string>

  datatype Kind = Added | Modified | Deleted
  datatype Change = Change(path: string, kind: Kind, before: string, after: string)
  datatype Operation = Operation(path: string, oldContent: Option<string>, newContent: Option<string>)

  datatype PatchError = InvalidPath | GuardMissingFile | GuardMismatch | DeleteMissingFile | NoOperations

  /** A Go map, an object that several holders may share. */
  class FileMap {
    var entries: Files

    constructor (entries: Files)
      ensures this.entries == entries
    {
      this.entries := entries;
    }
  }

  type Cleaner = string -> string

  predicate LeavesWorkspace(name: string) {
    name == "." || name == ".." || HasPrefix(name, "../")
  }

  /** invalidPath, which cleans the name once more */
  predicate IsInvalidPath(name: string, clean: Cleaner) {
    LeavesWorkspace(clean(name))
  }

  function Lookup(files: Files, path: string): string {
    if path in files then files[path] else ""
  }

  // ----- One operation -----

  datatype Patched = Patched(files: Files, changes: seq<Change>)

  predicate GuardHolds(files: Files, op: Operation) {
    op.oldContent.Some? ==> op.path in files && files[op.path] == op.oldContent.value
  }

  /** The operation can be carried out on these files. */
  predicate Admissible(files: Files, op: Operation, clean: Cleaner) {
    && !IsInvalidPath(op.path, clean)
    && GuardHolds(files, op)
    && (op.newContent.None? ==> op.path in files)
  }

  function Refusal(files: Files, op: Operation, clean: Cleaner): PatchError
    requires !Admissible(files, op, clean)
  {
    if IsInvalidPath(op.path, clean) then InvalidPath
    else if op.oldContent.Some? && op.path !in files then GuardMissingFile
    else if !GuardHolds(files, op) then GuardMismatch
    else DeleteMissingFile
  }

  /** The change an admissible operation makes. */
  function ChangeOf(files: Files, op: Operation): Change {
    match op.newContent
    case None => Change(op.path, Deleted, Lookup(files, op.path), "")
    case Some(content) =>
      Change(op.path, if op.path in files then Modified else Added, Lookup(files, op.path), content)
  }

  /** currentAfter's treatment of one change */
  function Redo(files: Files, c: Change): Files {
    if c.kind.Deleted? then files - {c.path} else files[c.path := c.after]
  }

  function Undo(files: Files, c: Change): Files {
    if c.kind.Added? then files - {c.path} else files[c.path := c.before]
  }

  /** The operations with their paths cleaned. */
  function Cleaned(ops: seq<Operation>, clean: Cleaner): (r: seq<Operation>)
    ensures |r| == |ops| && forall i :: 0 <= i < |ops| ==> r[i] == ops[i].(path := clean(ops[i].path))
  {
    if ops == [] then []
    else
      var op := ops[|ops| - 1];
      Cleaned(ops[..|ops| - 1], clean) + [op.(path := clean(op.path))]
  }

  /** All operations, on cleaned paths, in turn, each on the files the previous one left. */
  function ApplyOps(files: Files, ops: seq<Operation>, clean: Cleaner): Result<Patched, PatchError> {
    if ops == [] then Ok(Patched(files, []))
    else
      match ApplyOps(files, ops[..|ops| - 1], clean)
      case Err(e) => Err(e)
      case Ok(p) =>
        var op := ops[|ops| - 1];
        if !Admissible(p.files, op, clean) then Err(Refusal(p.files, op, clean))
        else
          var c := ChangeOf(p.files, op);
          Ok(Patched(Redo(p.files, c), p.changes + [c]))
  }

  /** currentAfter */
  function Replay(changes: seq<Change>, files: Files): Files {
    if changes == [] then files
    else Redo(Replay(changes[..|changes| - 1], files), changes[|changes| - 1])
  }

  /** The change log undone from its end. */
  function UndoAll(changes: seq<Change>, files: Files): Files {
    if changes == [] then files
    else UndoAll(changes[..|changes| - 1], Undo(files, changes[|changes| - 1]))
  }

  lemma {:induction false} PatchIsReplayed(files: Files, ops: seq<Operation>, clean: Cleaner)
    requires ApplyOps(files, ops, clean).Ok?
    ensures Replay(ApplyOps(files, ops, clean).value.changes, files) == ApplyOps(files, ops, clean).value.files
    decreases |ops|
  {
    if ops != [] {
      PatchIsReplayed(files, ops[..|ops| - 1], clean);
      var p := ApplyOps(files, ops[..|ops| - 1], clean).value;
      var c := ChangeOf(p.files, ops[|ops| - 1]);
      assert (p.changes + [c])[..|p.changes|] == p.changes;
    }
  }

  /** Undoing the change log of any successful patch restores the files, repeated paths included. */
  lemma {:induction false} PatchIsUndone(files: Files, ops: seq<Operation>, clean: Cleaner)
    requires ApplyOps(files, ops, clean).Ok?
    ensures UndoAll(ApplyOps(files, ops, clean).value.changes, ApplyOps(files, ops, clean).value.files) == files
    decreases |ops|
  {
    if ops != [] {
      PatchIsUndone(files, ops[..|ops| - 1], clean);
      var p := ApplyOps(files, ops[..|ops| - 1], clean).value;
      var c := ChangeOf(p.files, ops[|ops| - 1]);
      assert (p.changes + [c])[..|p.changes|] == p.changes;
      UndoOfRedo(p.files, ops[|ops| - 1], clean);
      hide Redo, Undo, ChangeOf, Admissible;
    }
  }

  lemma {:induction false} UndoOfRedo(files: Files, op: Operation, clean: Cleaner)
    requires Admissible(files, op, clean)
    ensures var c := ChangeOf(files, op); Undo(Redo(files, c), c) == files
  {
  }

  // ----- What a patch promises of each operation -----

  /** On the files it finds, the operation's guard and its deletion are right, and the change tells what happens. */
  predicate Honoured(left: Files, op: Operation, c: Change) {
    && c.path == op.path && c.before == Lookup(left, op.path)
    && (op.oldContent.Some? ==> op.path in left && left[op.path] == op.oldContent.value)
    && (match op.newContent
        case None => op.path in left && c.kind.Deleted? && c.after == ""
        case Some(content) => c.after == content && c.kind == if op.path in left then Modified else Added)
  }

  /** Each operation stays in the workspace and is honoured on the files that the changes before it leave. */
  ghost predicate AllHonoured(files: Files, ops: seq<Operation>, changes: seq<Change>, clean: Cleaner) {
    && |changes| == |ops|
    && forall i :: 0 <= i < |ops| ==>
         !LeavesWorkspace(clean(ops[i].path)) && Honoured(Replay(changes[..i], files), ops[i], changes[i])
  }

  /** What is wrong with the operation on the files it finds. */
  predicate Meets(left: Files, op: Operation, clean: Cleaner, e: PatchError) {
    if LeavesWorkspace(clean(op.path)) then e == InvalidPath
    else if op.oldContent.Some? then
      if op.path !in left then e == GuardMissingFile
      else left[op.path] != op.oldContent.value && e == GuardMismatch
    else op.newContent.None? && op.path !in left && e == DeleteMissingFile
  }

  /** The operations before the i-th are honoured, and that one meets the error. */
  ghost predicate RefusedAt(files: Files, ops: seq<Operation>, i: nat, done: seq<Change>, clean: Cleaner, e: PatchError) {
    i < |ops| && AllHonoured(files, ops[..i], done, clean) && Meets(Replay(done, files), ops[i], clean, e)
  }

  lemma {:induction false} JudgedRight(left: Files, op: Operation, clean: Cleaner)
    ensures Admissible(left, op, clean) ==>
              && !LeavesWorkspace(clean(op.path)) && Honoured(left, op, ChangeOf(left, op))
              && forall e :: !Meets(left, op, clean, e)
    ensures !Admissible(left, op, clean) ==>
              && Meets(left, op, clean, Refusal(left, op, clean))
              && (LeavesWorkspace(clean(op.path)) || forall c :: !Honoured(left, op, c))
  {
    hide LeavesWorkspace;
  }

  lemma {:induction false} HonouredIs(left: Files, op: Operation, c: Change)
    requires Honoured(left, op, c)
    ensures c == ChangeOf(left, op)
  {
  }

  lemma {:induction false} MeetsOnce(left: Files, op: Operation, clean: Cleaner, d: PatchError, e: PatchError)
    requires Meets(left, op, clean, d) && Meets(left, op, clean, e)
    ensures d == e
  {
    hide LeavesWorkspace;
  }

  lemma {:induction false} HonouredSnoc(files: Files, ops: seq<Operation>, changes: seq<Change>, op: Operation, c: Change, clean: Cleaner)
    requires |changes| == |ops|
    ensures AllHonoured(files, ops + [op], changes + [c], clean) <==>
            && AllHonoured(files, ops, changes, clean)
            && !LeavesWorkspace(clean(op.path)) && Honoured(Replay(changes, files), op, c)
  {
    hide Honoured, LeavesWorkspace, Replay;
    var allOps, all := ops + [op], changes + [c];
    assert forall i :: 0 <= i < |ops| ==> all[..i] == changes[..i] && all[i] == changes[i] && allOps[i] == ops[i];
    assert all[..|ops|] == changes && allOps[|ops|] == op && all[|ops|] == c;
  }

  lemma {:induction false} ReplaySnoc(changes: seq<Change>, c: Change, files: Files)
    ensures Replay(changes + [c], files) == Redo(Replay(changes, files), c)
  {
    assert (changes + [c])[..|changes|] == changes;
  }

  lemma {:induction false} ApplySnoc(files: Files, ops: seq<Operation>, op: Operation, clean: Cleaner)
    ensures ApplyOps(files, ops + [op], clean) ==
            match ApplyOps(files, ops, clean)
            case Err(e) => Err(e)
            case Ok(p) =>
              if !Admissible(p.files, op, clean) then Err(Refusal(p.files, op, clean))
              else Ok(Patched(Redo(p.files, ChangeOf(p.files, op)), p.changes + [ChangeOf(p.files, op)]))
  {
    hide Admissible, Refusal, Redo, ChangeOf;
    assert (ops + [op])[..|ops|] == ops;
  }

  /** A patch succeeds exactly with the changes that honour every operation, repeated paths included. */
  lemma {:induction false} PatchSucceedsIff(files: Files, ops: seq<Operation>, changes: seq<Change>, clean: Cleaner)
    ensures ApplyOps(files, ops, clean) == Ok(Patched(Replay(changes, files), changes)) <==> AllHonoured(files, ops, changes, clean)
    decreases |ops|
  {
    hide Admissible, Refusal, ChangeOf, Redo, Honoured, LeavesWorkspace, Meets, AllHonoured, ApplyOps, Replay;
    if ops == [] {
      NothingPatched(files, changes, clean);
    } else if changes == [] {
      ChangePerOperation(files, ops, changes, clean);
    } else {
      var front, op := ops[..|ops| - 1], ops[|ops| - 1];
      var before, c := changes[..|changes| - 1], changes[|changes| - 1];
      assert front + [op] == ops && before + [c] == changes;
      PatchSucceedsIff(files, front, before, clean);
      ApplySnoc(files, front, op, clean);
      ReplaySnoc(before, c, files);
      ChangePerOperation(files, ops, changes, clean);
      var left := Replay(before, files);
      JudgedRight(left, op, clean);
      if |before| == |front| {
        HonouredSnoc(files, front, before, op, c, clean);
        if Honoured(left, op, c) { HonouredIs(left, op, c); }
        if ApplyOps(files, front, clean).Ok? { PatchIsReplayed(files, front, clean); }
      }
    }
  }

  lemma {:induction false} NothingPatched(files: Files, changes: seq<Change>, clean: Cleaner)
    ensures ApplyOps(files, [], clean) == Ok(Patched(files, []))
    ensures ApplyOps(files, [], clean) == Ok(Patched(Replay(changes, files), changes)) <==> changes == []
    ensures AllHonoured(files, [], changes, clean) <==> changes == []
  {
  }

  lemma {:induction false} ChangePerOperation(files: Files, ops: seq<Operation>, changes: seq<Change>, clean: Cleaner)
    ensures ApplyOps(files, ops, clean).Ok? ==> |ApplyOps(files, ops, clean).value.changes| == |ops|
    ensures AllHonoured(files, ops, changes, clean) ==> |changes| == |ops|
    decreases |ops|
  {
    hide Admissible, Refusal, ChangeOf, Redo, Honoured;
    if ops != [] {
      ChangePerOperation(files, ops[..|ops| - 1], changes, clean);
    }
  }

  /** A patch fails exactly with the error that the first operation to be refused meets. */
  lemma {:induction false} PatchFailsAt(files: Files, ops: seq<Operation>, i: nat, done: seq<Change>, clean: Cleaner, e: PatchError)
    requires RefusedAt(files, ops, i, done, clean, e)
    ensures ApplyOps(files, ops, clean) == Err(e)
  {
    hide Admissible, Refusal, ChangeOf, Redo, LeavesWorkspace, Meets, AllHonoured, ApplyOps, Replay;
    PatchSucceedsIff(files, ops[..i], done, clean);
    OneMoreApplied(files, ops, i, clean);
    var left := Replay(done, files);
    JudgedRight(left, ops[i], clean);
    MeetsOnce(left, ops[i], clean, e, Refusal(left, ops[i], clean));
  }

  /** Every patch succeeds or has a first operation that is refused. */
  lemma {:induction false} PatchOutcome(files: Files, ops: seq<Operation>, clean: Cleaner)
    ensures match ApplyOps(files, ops, clean)
            case Ok(p) => p.files == Replay(p.changes, files) && AllHonoured(files, ops, p.changes, clean)
            case Err(e) => exists i, done :: RefusedAt(files, ops, i, done, clean, e)
    decreases |ops|
  {
    hide Admissible, Refusal, ChangeOf, Redo, LeavesWorkspace, Meets, AllHonoured, ApplyOps, Replay;
    if ApplyOps(files, ops, clean).Ok? {
      PatchIsReplayed(files, ops, clean);
      PatchSucceedsIff(files, ops, ApplyOps(files, ops, clean).value.changes, clean);
    } else if ops == [] {
      NothingPatched(files, [], clean);
    } else {
      var n := |ops| - 1;
      var front, op := ops[..n], ops[n];
      assert front + [op] == ops;
      PatchOutcome(files, front, clean);
      ApplySnoc(files, front, op, clean);
      match ApplyOps(files, front, clean)
      case Err(e) =>
        var i: nat, done: seq<Change> :| RefusedAt(files, front, i, done, clean, e);
        assert front[..i] == ops[..i] && front[i] == ops[i];
        assert RefusedAt(files, ops, i, done, clean, e);
      case Ok(p) =>
        JudgedRight(p.files, op, clean);
        assert RefusedAt(files, ops, n, p.changes, clean, Refusal(p.files, op, clean));
    }
  }

  /** A guard that tells of another content than the file holds fails the patch. */
  lemma {:induction false} StaleGuard(files: Files, op: Operation, rest: seq<Operation>, clean: Cleaner)
    requires op.path in files && op.oldContent.Some? && op.oldContent.value != files[op.path]
    requires !LeavesWorkspace(clean(op.path))
    ensures ApplyOps(files, [op] + rest, clean) == Err(GuardMismatch)
  {
    hide LeavesWorkspace, ApplyOps, Admissible, Refusal;
    NothingPatched(files, [], clean);
    assert ([op] + rest)[..0] == [] && Replay([], files) == files;
    PatchFailsAt(files, [op] + rest, 0, [], clean, GuardMismatch);
  }

  // ----- Operations on distinct paths -----

  predicate DistinctPaths(ops: seq<Operation>) {
    forall i, j :: 0 <= i < j < |ops| ==> ops[i].path != ops[j].path
  }

  predicate SameAt(a: Files, b: Files, path: string) {
    (path in a <==> path in b) && (path in a && path in b ==> a[path] == b[path])
  }

  /** The files hold what the operation asked for. */
  predicate Carried(files: Files, op: Operation) {
    && (op.path in files <==> op.newContent.Some?)
    && (op.path in files ==> files[op.path] == op.newContent.value)
  }

  lemma {:induction false} StepEffect(files: Files, op: Operation, other: string, clean: Cleaner)
    requires Admissible(files, op, clean)
    ensures Carried(Redo(files, ChangeOf(files, op)), op)
    ensures other != op.path ==> SameAt(files, Redo(files, ChangeOf(files, op)), other)
  {
  }

  lemma {:induction false} AdmissibleSame(a: Files, b: Files, op: Operation, clean: Cleaner)
    requires SameAt(a, b, op.path)
    ensures Admissible(a, op, clean) <==> Admissible(b, op, clean)
  {
  }

  predicate Touches(ops: seq<Operation>, path: string) {
    exists i :: 0 <= i < |ops| && ops[i].path == path
  }

  /** Every operation is carried out and nothing else has changed. */
  ghost predicate AllCarried(files: Files, ops: seq<Operation>, after: Files) {
    && (forall i :: 0 <= i < |ops| ==> Carried(after, ops[i]))
    && (forall path :: !Touches(ops, path) ==> SameAt(files, after, path))
  }

  lemma {:induction false} CarryOneMore(files: Files, ops: seq<Operation>, q: Files, clean: Cleaner)
    requires ops != [] && DistinctPaths(ops)
    requires AllCarried(files, ops[..|ops| - 1], q)
    requires Admissible(q, ops[|ops| - 1], clean)
    ensures AllCarried(files, ops, Redo(q, ChangeOf(q, ops[|ops| - 1])))
  {
    var n := |ops| - 1;
    var front, op := ops[..n], ops[n];
    var after := Redo(q, ChangeOf(q, op));
    forall i | 0 <= i < |ops|
      ensures Carried(after, ops[i])
    {
      StepEffect(q, op, ops[i].path, clean);
      if i < n { assert Carried(q, front[i]); }
    }
    forall path | !Touches(ops, path)
      ensures SameAt(files, after, path)
    {
      StepEffect(q, op, path, clean);
      assert ops[n].path != path;
      assert !Touches(front, path) by {
        assert forall i :: 0 <= i < n ==> front[i] == ops[i];
      }
    }
  }

  /** On distinct paths the operations do not interfere: each is judged, and carried out, on its own. */
  lemma {:induction false} IndependentOps(files: Files, ops: seq<Operation>, clean: Cleaner)
    requires DistinctPaths(ops)
    ensures ApplyOps(files, ops, clean).Ok? <==> forall i :: 0 <= i < |ops| ==> Admissible(files, ops[i], clean)
    ensures ApplyOps(files, ops, clean).Ok? ==> AllCarried(files, ops, ApplyOps(files, ops, clean).value.files)
    decreases |ops|
  {
    if ops != [] {
      var n := |ops| - 1;
      var front, op := ops[..n], ops[n];
      IndependentOps(files, front, clean);
      assert forall i :: 0 <= i < n ==> front[i] == ops[i];
      if ApplyOps(files, front, clean).Ok? {
        var q := ApplyOps(files, front, clean).value.files;
        assert !Touches(front, op.path);
        AdmissibleSame(files, q, op, clean);
        if Admissible(q, op, clean) {
          CarryOneMore(files, ops, q, clean);
        }
      }
      hide AllCarried, Redo, ChangeOf, Admissible;
    }
  }

  /** The files hold what the last operation on the path asked for, or what they held before. */
  ghost predicate LastWord(files: Files, ops: seq<Operation>, after: Files, path: string) {
    && (!Touches(ops, path) ==> SameAt(files, after, path))
    && forall i :: 0 <= i < |ops| && ops[i].path == path && !Touches(ops[i + 1..], path) ==> Carried(after, ops[i])
  }

  lemma {:induction false} LastWordSnoc(files: Files, ops: seq<Operation>, q: Files, op: Operation, path: string, clean: Cleaner)
    requires LastWord(files, ops, q, path) && Admissible(q, op, clean)
    ensures LastWord(files, ops + [op], Redo(q, ChangeOf(q, op)), path)
  {
    var all, after := ops + [op], Redo(q, ChangeOf(q, op));
    StepEffect(q, op, path, clean);
    hide Redo, ChangeOf, Admissible, Carried, SameAt;
    assert all[|ops|] == op && forall i :: 0 <= i < |ops| ==> all[i] == ops[i];
    if !Touches(all, path) {
      assert !Touches(ops, path);
      SameAtOn(files, q, after, path);
    }
    forall i | 0 <= i < |all| && all[i].path == path && !Touches(all[i + 1..], path)
      ensures Carried(after, all[i])
    {
      if i < |ops| {
        assert all[i + 1..] == ops[i + 1..] + [op];
        var rest := all[i + 1..];
        assert rest[|rest| - 1] == op && forall k :: 0 <= k < |rest| - 1 ==> rest[k] == ops[i + 1..][k];
        CarriedOn(q, after, ops[i]);
      }
    }
  }

  lemma {:induction false} SameAtOn(a: Files, b: Files, c: Files, path: string)
    requires SameAt(a, b, path) && SameAt(b, c, path)
    ensures SameAt(a, c, path)
  {
  }

  lemma {:induction false} CarriedOn(a: Files, b: Files, op: Operation)
    requires Carried(a, op) && SameAt(a, b, op.path)
    ensures Carried(b, op)
  {
  }

  /** After a successful patch, on every path the last operation has the last word, and other paths are as before. */
  lemma {:induction false} LastOperationWins(files: Files, ops: seq<Operation>, path: string, clean: Cleaner)
    requires ApplyOps(files, ops, clean).Ok?
    ensures LastWord(files, ops, ApplyOps(files, ops, clean).value.files, path)
    decreases |ops|
  {
    if ops != [] {
      var front, op := ops[..|ops| - 1], ops[|ops| - 1];
      assert front + [op] == ops;
      ApplySnoc(files, front, op, clean);
      hide Redo, ChangeOf, Admissible, LastWord, ApplyOps;
      LastOperationWins(files, front, path, clean);
      LastWordSnoc(files, front, ApplyOps(files, front, clean).value.files, op, path, clean);
    }
  }

  // ----- applyPatchToFiles -----

  /** delete for every name of the map */
  method Empty(files: FileMap)
    modifies files
    ensures files.entries == map[]
  {
    var names := files.entries.Keys;
    while names != {}
      invariant files.entries.Keys == names
      decreases |names|
    {
      var name :| name in names;
      files.entries := files.entries - {name};
      names := names - {name};
    }
  }

  /** Empties the map key by key, then writes every entry of next. */
  method Overwrite(files: FileMap, next: Files)
    modifies files
    ensures files.entries == next
  {
    Empty(files);
    var names := next.Keys;
    while names != {}
      invariant names <= next.Keys
      invariant files.entries.Keys == next.Keys - names
      invariant forall x :: x in files.entries ==> files.entries[x] == next[x]
      decreases |names|
    {
      var name :| name in names;
      files.entries := files.entries[name := next[name]];
      names := names - {name};
    }
  }

  /** applyPatchToFiles: all operations or none */
  method ApplyPatchToFiles(files: FileMap, ops: seq<Operation>, dryRun: bool, clean: Cleaner)
      returns (r: Result<seq<Change>, PatchError>)
    modifies files
    ensures match ApplyOps(old(files.entries), Cleaned(ops, clean), clean)
            case Err(e) => r == Err(e) && files.entries == old(files.entries)
            case Ok(p) => r == Ok(p.changes) && files.entries == if dryRun then old(files.entries) else p.files
    ensures match r
            case Ok(changes) =>
              && AllHonoured(old(files.entries), Cleaned(ops, clean), changes, clean)
              && files.entries == if dryRun then old(files.entries) else Replay(changes, old(files.entries))
            case Err(e) =>
              && files.entries == old(files.entries)
              && exists i, done :: RefusedAt(old(files.entries), Cleaned(ops, clean), i, done, clean, e)
  {
    hide ApplyOps, Cleaned, IsInvalidPath, AllHonoured, RefusedAt, Replay;
    ghost var start, cleaned := files.entries, Cleaned(ops, clean);
    PatchOutcome(start, cleaned, clean);
    var next, changes := files.entries, [];
    NothingApplied(start, cleaned, clean);
    for i := 0 to |ops|
      invariant files.entries == start
      invariant ApplyOps(start, cleaned[..i], clean) == Ok(Patched(next, changes))
    {
      var op := ops[i].(path := clean(ops[i].path));
      OneMoreApplied(start, cleaned, i, clean);
      if IsInvalidPath(op.path, clean) {
        return Err(InvalidPath);
      }
      var found := op.path in next;
      var before := if found then next[op.path] else "";
      if op.oldContent.Some? {
        if !found {
          return Err(GuardMissingFile);
        }
        if before != op.oldContent.value {
          return Err(GuardMismatch);
        }
      }
      if op.newContent.None? {
        if !found {
          return Err(DeleteMissingFile);
        }
        next := next - {op.path};
        changes := changes + [Change(op.path, Deleted, before, "")];
        continue;
      }
      var after := op.newContent.value;
      next := next[op.path := after];
      changes := changes + [Change(op.path, if found then Modified else Added, before, after)];
    }
    assert cleaned[..|ops|] == cleaned;
    if !dryRun {
      Overwrite(files, next);
    }
    return Ok(changes);
  }

  lemma {:induction false} NothingApplied(files: Files, ops: seq<Operation>, clean: Cleaner)
    ensures ApplyOps(files, ops[..0], clean) == Ok(Patched(files, []))
  {
    assert ops[..0] == [];
  }

  /** One operation more, or the refusal that ends the patch. */
  lemma {:induction false} OneMoreApplied(files: Files, ops: seq<Operation>, i: nat, clean: Cleaner)
    requires i < |ops| && ApplyOps(files, ops[..i], clean).Ok?
    ensures var p, op := ApplyOps(files, ops[..i], clean).value, ops[i];
            if Admissible(p.files, op, clean) then
              ApplyOps(files, ops[..i + 1], clean) ==
              Ok(Patched(Redo(p.files, ChangeOf(p.files, op)), p.changes + [ChangeOf(p.files, op)]))
            else ApplyOps(files, ops, clean) == Err(Refusal(p.files, op, clean))
  {
    hide Admissible, Refusal, Redo, ChangeOf;
    assert ops[..i + 1][..i] == ops[..i] && ops[..i + 1][i] == ops[i];
    FailureIsFinal(files, ops, i + 1, clean);
  }

  lemma {:induction false} FailureIsFinal(files: Files, ops: seq<Operation>, k: nat, clean: Cleaner)
    requires k <= |ops|
    ensures ApplyOps(files, ops[..k], clean).Err? ==> ApplyOps(files, ops, clean) == ApplyOps(files, ops[..k], clean)
    decreases |ops|
  {
    if k == |ops| {
      assert ops[..k] == ops;
    } else {
      FailureIsFinal(files, ops[..|ops| - 1], k, clean);
      assert ops[..|ops| - 1][..k] == ops[..k];
    }
  }

  // ----- Summaries -----

  datatype Summary = Summary(
    files: nat, added: nat, modified: nat, deleted: nat,
    bytesBefore: nat, bytesAfter: nat, byteDelta: int, paths: seq<string>)

  function BytesBefore(changes: seq<Change>): nat {
    if changes == [] then 0 else BytesBefore(changes[..|changes| - 1]) + |changes[|changes| - 1].before|
  }

  function BytesAfter(changes: seq<Change>): nat {
    if changes == [] then 0 else BytesAfter(changes[..|changes| - 1]) + |changes[|changes| - 1].after|
  }

  function Count(changes: seq<Change>, kind: Kind): nat {
    if changes == [] then 0
    else Count(changes[..|changes| - 1], kind) + (if changes[|changes| - 1].kind == kind then 1 else 0)
  }

  lemma {:induction false} NothingCounted()
    ensures Count([], Added) == 0 && Count([], Modified) == 0 && Count([], Deleted) == 0
    ensures BytesBefore([]) == 0 && BytesAfter([]) == 0
  {
  }

  lemma {:induction false} OneMoreCounted(changes: seq<Change>, i: nat)
    requires i < |changes|
    ensures forall kind :: Count(changes[..i + 1], kind) == Count(changes[..i], kind) + (if changes[i].kind == kind then 1 else 0)
    ensures BytesBefore(changes[..i + 1]) == BytesBefore(changes[..i]) + |changes[i].before|
    ensures BytesAfter(changes[..i + 1]) == BytesAfter(changes[..i]) + |changes[i].after|
  {
    assert changes[..i + 1][..i] == changes[..i];
  }

  /** SummarizeChanges */
  method SummarizeChanges(changes: seq<Change>) returns (s: Summary)
    ensures s.files == |changes| == |s.paths|
    ensures forall i :: 0 <= i < |changes| ==> s.paths[i] == changes[i].path
    ensures s.added == Count(changes, Added) && s.modified == Count(changes, Modified) && s.deleted == Count(changes, Deleted)
    ensures s.added + s.modified + s.deleted == s.files
    ensures s.bytesBefore == BytesBefore(changes) && s.bytesAfter == BytesAfter(changes)
    ensures s.byteDelta == BytesAfter(changes) - BytesBefore(changes)
  {
    hide Count, BytesBefore, BytesAfter;
    s := Summary(|changes|, 0, 0, 0, 0, 0, 0, []);
    NothingCounted();
    assert changes[..0] == [];
    for i := 0 to |changes|
      invariant s.files == |changes| && |s.paths| == i
      invariant forall k :: 0 <= k < i ==> s.paths[k] == changes[k].path
      invariant s.added == Count(changes[..i], Added) && s.modified == Count(changes[..i], Modified)
      invariant s.deleted == Count(changes[..i], Deleted) && s.added + s.modified + s.deleted == i
      invariant s.bytesBefore == BytesBefore(changes[..i]) && s.bytesAfter == BytesAfter(changes[..i])
    {
      var c := changes[i];
      OneMoreCounted(changes, i);
      s := s.(paths := s.paths + [c.path],
              bytesBefore := s.bytesBefore + |c.before|,
              bytesAfter := s.bytesAfter + |c.after|);
      match c.kind {
        case Added => s := s.(added := s.added + 1);
        case Modified => s := s.(modified := s.modified + 1);
        case Deleted => s := s.(deleted := s.deleted + 1);
      }
    }
    assert changes[..|changes|] == changes;
    s := s.(byteDelta := s.bytesAfter - s.bytesBefore);
  }

  /** The bytes in all files together. */
  ghost function TotalBytes(files: Files): nat
    decreases |files|
  {
    if files == map[] then 0
    else
      var path :| path in files;
      |files[path]| + TotalBytes(files - {path})
  }

  lemma {:induction false} TotalBytesWithout(files: Files, path: string)
    requires path in files
    ensures TotalBytes(files) == |files[path]| + TotalBytes(files - {path})
    decreases |files|
  {
    var pick :| pick in files && TotalBytes(files) == |files[pick]| + TotalBytes(files - {pick});
    if pick != path {
      TotalBytesWithout(files - {pick}, path);
      TotalBytesWithout(files - {path}, pick);
      assert files - {pick} - {path} == files - {path} - {pick};
    }
  }

  lemma {:induction false} TotalBytesWith(rest: Files, path: string, content: string)
    requires path !in rest
    ensures TotalBytes(rest[path := content]) == TotalBytes(rest) + |content|
    ensures |rest[path := content]| == |rest| + 1
  {
    hide TotalBytes;
    var files := rest[path := content];
    TotalBytesWithout(files, path);
    assert files - {path} == rest;
    CountWith(rest, path, content);
  }

  lemma {:induction false} CountWith(rest: Files, path: string, content: string)
    requires path !in rest
    ensures |rest[path := content]| == |rest| + 1
  {
    var files := rest[path := content];
    assert files.Keys == rest.Keys + {path};
    assert |files| == |files.Keys| && |rest| == |rest.Keys|;
  }

  lemma {:induction false} BytesAt(files: Files, path: string)
    ensures TotalBytes(files) == TotalBytes(files - {path}) + |Lookup(files, path)|
    ensures |files| == |files - {path}| + (if path in files then 1 else 0)
  {
    hide TotalBytes;
    var rest := files - {path};
    if path in files {
      TotalBytesWith(rest, path, files[path]);
      assert rest[path := files[path]] == files;
    } else {
      assert rest == files;
    }
  }

  lemma {:induction false} RedoBytes(files: Files, op: Operation, clean: Cleaner)
    requires Admissible(files, op, clean)
    ensures var c := ChangeOf(files, op);
            && TotalBytes(Redo(files, c)) - TotalBytes(files) == |c.after| - |c.before|
            && |Redo(files, c)| - |files| == (if c.kind.Added? then 1 else 0) - (if c.kind.Deleted? then 1 else 0)
  {
    hide *;
    RedoAt(files, op, clean);
    BytesAt(files, op.path);
    BytesAt(Redo(files, ChangeOf(files, op)), op.path);
  }

  lemma {:induction false} RedoAt(files: Files, op: Operation, clean: Cleaner)
    requires Admissible(files, op, clean)
    ensures var c := ChangeOf(files, op);
            var after := Redo(files, c);
            && after - {op.path} == files - {op.path}
            && Lookup(files, op.path) == c.before && Lookup(after, op.path) == c.after
            && (c.kind.Added? <==> op.path !in files) && (c.kind.Deleted? <==> op.path !in after)
  {
    hide IsInvalidPath;
  }

  /** The summary of a patch's change log measures the files themselves. */
  lemma {:induction false} SummaryMeasuresFiles(files: Files, ops: seq<Operation>, clean: Cleaner)
    requires ApplyOps(files, ops, clean).Ok?
    ensures var p := ApplyOps(files, ops, clean).value;
            && BytesAfter(p.changes) - BytesBefore(p.changes) == TotalBytes(p.files) - TotalBytes(files)
            && Count(p.changes, Added) - Count(p.changes, Deleted) == |p.files| - |files|
    decreases |ops|
  {
    if ops != [] {
      SummaryMeasuresFiles(files, ops[..|ops| - 1], clean);
      var p := ApplyOps(files, ops[..|ops| - 1], clean).value;
      var c := ChangeOf(p.files, ops[|ops| - 1]);
      RedoBytes(p.files, ops[|ops| - 1], clean);
      assert (p.changes + [c])[..|p.changes|] == p.changes;
    }
  }

  // ----- Ordered names -----

  /** Go's order on strings */
  predicate Less(a: string, b: string) {
    b != "" && (a == "" || a[0] < b[0] || (a[0] == b[0] && Less(a[1..], b[1..])))
  }

  lemma {:induction false} LessTotal(a: string, b: string)
    ensures Less(a, b) || a == b || Less(b, a)
    ensures !(Less(a, b) && Less(b, a)) && !Less(a, a)
  {
    if a != "" {
      LessTotal(a[1..], a[1..]);
      if b != "" && a[0] == b[0] {
        LessTotal(a[1..], b[1..]);
        assert a == [a[0]] + a[1..] && b == [b[0]] + b[1..];
      }
    }
  }

  lemma {:induction false} LessTransitive(a: string, b: string, c: string)
    requires Less(a, b) && Less(b, c)
    ensures Less(a, c)
  {
    if a != "" && a[0] == b[0] && b[0] == c[0] {
      LessTransitive(a[1..], b[1..], c[1..]);
    }
  }

  predicate Ascending(names: seq<string>) {
    forall i, j :: 0 <= i < j < |names| ==> Less(names[i], names[j])
  }

  /** sort.Strings on the keys of a map */
  method SortedNames(names: set<string>) returns (r: seq<string>)
    ensures Ascending(r)
    ensures forall x :: x in r <==> x in names
  {
    r := [];
    var left := names;
    while left != {}
      invariant left <= names && Ascending(r)
      invariant forall x :: x in r <==> x in names - left
      decreases |left|
    {
      var x :| x in left;
      var p := 0;
      while p < |r| && Less(r[p], x)
        invariant 0 <= p <= |r|
        invariant forall i :: 0 <= i < p ==> Less(r[i], x)
      {
        p := p + 1;
      }
      InsertAscending(r, p, x);
      left := left - {x};
      r := r[..p] + [x] + r[p..];
    }
  }

  lemma {:induction false} InsertAscending(r: seq<string>, p: nat, x: string)
    requires Ascending(r) && p <= |r| && x !in r
    requires forall i :: 0 <= i < p ==> Less(r[i], x)
    requires p < |r| ==> !Less(r[p], x)
    ensures Ascending(r[..p] + [x] + r[p..])
    ensures forall y :: y in r[..p] + [x] + r[p..] <==> y == x || y in r
  {
    forall j | p <= j < |r|
      ensures Less(x, r[j])
    {
      LessTotal(r[p], x);
      assert r[p] in r;
      if j > p { LessTransitive(x, r[p], r[j]); }
    }
    assert r == r[..p] + r[p..];
  }

  // ----- diffFiles -----

  predicate Differs(path: string, before: Files, after: Files) {
    if path in before then path !in after || before[path] != after[path] else path in after
  }

  function DifferenceAt(path: string, before: Files, after: Files): Change {
    Change(path,
           if path !in before then Added else if path !in after then Deleted else Modified,
           Lookup(before, path), Lookup(after, path))
  }

  function Paths(changes: seq<Change>): seq<string> {
    seq(|changes|, i requires 0 <= i < |changes| => changes[i].path)
  }

  /** One entry per differing path, in path order, with both contents. */
  ghost predicate IsDiff(before: Files, after: Files, changes: seq<Change>) {
    && Ascending(Paths(changes))
    && (forall c :: c in changes ==> Differs(c.path, before, after) && c == DifferenceAt(c.path, before, after))
    && (forall path :: Differs(path, before, after) ==> path in Paths(changes))
  }

  /** The diff as far as these names go. */
  ghost predicate PartDiff(names: seq<string>, before: Files, after: Files, changes: seq<Change>) {
    && Ascending(Paths(changes))
    && (forall path :: path in Paths(changes) ==> path in names)
    && (forall c :: c in changes ==> Differs(c.path, before, after) && c == DifferenceAt(c.path, before, after))
    && (forall path :: path in names && Differs(path, before, after) ==> path in Paths(changes))
  }

  lemma {:induction false} NoNames(before: Files, after: Files)
    ensures PartDiff([], before, after, [])
  {
  }

  lemma {:induction false} AllNames(names: seq<string>, before: Files, after: Files, changes: seq<Change>)
    requires PartDiff(names[..|names|], before, after, changes) && forall x :: x in names <==> x in before.Keys + after.Keys
    ensures IsDiff(before, after, changes)
  {
    hide Less, DifferenceAt;
    assert names[..|names|] == names;
  }

  lemma {:induction false} PathsSnoc(changes: seq<Change>, c: Change)
    ensures Paths(changes + [c]) == Paths(changes) + [c.path]
  {
  }

  lemma {:induction false} AscendingSnoc(names: seq<string>, name: string)
    requires Ascending(names) && forall x :: x in names ==> Less(x, name)
    ensures Ascending(names + [name])
  {
    hide Less;
    assert forall k :: 0 <= k < |names| ==> names[k] in names;
  }

  /** One name more, with its difference if there is one. */
  lemma {:induction false} OneMoreName(names: seq<string>, i: nat, changes: seq<Change>, before: Files, after: Files)
    requires i < |names| && Ascending(names) && PartDiff(names[..i], before, after, changes)
    ensures PartDiff(names[..i + 1], before, after,
                     changes + (if Differs(names[i], before, after) then [DifferenceAt(names[i], before, after)] else []))
  {
    hide Less, Paths, Differs;
    var name, c := names[i], DifferenceAt(names[i], before, after);
    assert names[..i + 1] == names[..i] + [name];
    if Differs(name, before, after) {
      PathsSnoc(changes, c);
      forall x | x in Paths(changes)
        ensures Less(x, name)
      {
        var k :| 0 <= k < i && names[..i][k] == x;
      }
      AscendingSnoc(Paths(changes), name);
    } else {
      assert changes + [] == changes;
    }
  }

  /** diffFiles */
  method DiffFiles(before: Files, after: Files) returns (out: seq<Change>)
    ensures IsDiff(before, after, out)
  {
    hide PartDiff;
    var names := SortedNames(before.Keys + after.Keys);
    out := [];
    assert names[..0] == [];
    NoNames(before, after);
    for i := 0 to |names|
      invariant PartDiff(names[..i], before, after, out)
    {
      var name := names[i];
      OneMoreName(names, i, out, before, after);
      assert out + [] == out;
      if name !in before && name in after {
        out := out + [Change(name, Added, "", after[name])];
      } else if name in before && name !in after {
        out := out + [Change(name, Deleted, before[name], "")];
      } else if name in before && name in after && before[name] != after[name] {
        out := out + [Change(name, Modified, before[name], after[name])];
      }
    }
    AllNames(names, before, after, out);
    assert names[..|names|] == names;
  }

  lemma {:induction false} ReplayAt(changes: seq<Change>, files: Files, path: string)
    requires Ascending(Paths(changes))
    ensures var end := Replay(changes, files);
            if path !in Paths(changes) then (path in end <==> path in files) && Lookup(end, path) == Lookup(files, path)
            else forall i :: 0 <= i < |changes| && changes[i].path == path ==>
                   (path in end <==> !changes[i].kind.Deleted?) && (path in end ==> end[path] == changes[i].after)
    decreases |changes|
  {
    if changes != [] {
      var n := |changes| - 1;
      var front := changes[..n];
      assert Paths(changes) == Paths(front) + [changes[n].path];
      assert forall i :: 0 <= i < n ==> Paths(front)[i] == Paths(changes)[i];
      ReplayAt(front, files, path);
      forall i | 0 <= i < n
        ensures changes[i].path != changes[n].path
      {
        assert Less(Paths(changes)[i], Paths(changes)[n]);
        LessTotal(changes[n].path, changes[n].path);
      }
    }
  }

  /** Replaying a diff on its base gives the other side. */
  lemma {:induction false} DiffReplays(before: Files, after: Files, changes: seq<Change>)
    requires IsDiff(before, after, changes)
    ensures Replay(changes, before) == after
  {
    var end := Replay(changes, before);
    forall path
      ensures (path in end <==> path in after) && (path in end ==> end[path] == after[path])
    {
      ReplayAt(changes, before, path);
      if path in Paths(changes) {
        var i :| 0 <= i < |changes| && Paths(changes)[i] == path;
        assert changes[i] in changes;
      } else {
        assert !Differs(path, before, after);
      }
    }
    assert end.Keys == after.Keys;
  }

  lemma {:induction false} AscendingUnique(a: seq<string>, b: seq<string>)
    requires Ascending(a) && Ascending(b) && forall x :: x in a <==> x in b
    ensures a == b
  {
    assert a != [] ==> a[0] in a;
    assert b != [] ==> b[0] in b;
    if a != [] && b != [] {
      FirstIsLeast(a, b[0]);
      FirstIsLeast(b, a[0]);
      LessTotal(a[0], b[0]);
      LessTotal(a[0], a[0]);
      assert a == [a[0]] + a[1..] && b == [b[0]] + b[1..];
      assert forall k :: 1 <= k < |a| ==> Less(a[0], a[k]);
      assert forall k :: 1 <= k < |b| ==> Less(b[0], b[k]);
      forall x
        ensures x in a[1..] <==> x in b[1..]
      {
        assert x in a[1..] ==> x in b && x != a[0];
        assert x in b[1..] ==> x in a && x != b[0];
      }
      AscendingUnique(a[1..], b[1..]);
    }
  }

  lemma {:induction false} FirstIsLeast(a: seq<string>, x: string)
    requires Ascending(a) && x in a
    ensures a[0] == x || Less(a[0], x)
  {
  }

  /** The diff list is determined by the two file maps, whatever order the maps are ranged over in. */
  lemma {:induction false} DiffUnique(before: Files, after: Files, a: seq<Change>, b: seq<Change>)
    requires IsDiff(before, after, a) && IsDiff(before, after, b)
    ensures a == b
  {
    forall x
      ensures x in Paths(a) <==> x in Paths(b)
    {
      if x in Paths(a) {
        var i :| 0 <= i < |a| && Paths(a)[i] == x;
        assert a[i] in a;
      }
      if x in Paths(b) {
        var i :| 0 <= i < |b| && Paths(b)[i] == x;
        assert b[i] in b;
      }
    }
    AscendingUnique(Paths(a), Paths(b));
    forall i | 0 <= i < |a|
      ensures a[i] == b[i]
    {
      assert a[i] in a && b[i] in b && Paths(a)[i] == Paths(b)[i];
    }
    assert |a| == |Paths(a)| == |Paths(b)| == |b|;
  }
}
