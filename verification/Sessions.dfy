/**
  session/store.go, session/jsonl.go and session/compaction.go: the in-memory store, the log-structured
  store, and the transcript view that a compaction checkpoint gives.

  Session and message ids are canonical and drawn by the caller; a log file is a sequence of entries.
  norm is the normalisation of a tool use's raw input.
 */
module Sessions {
  import opened Wrappers
  import opened Transcript

  datatype SessionError = UnknownSession | NegativeRawCount | RawCountTooLarge | MessageNotFound

  datatype Checkpoint = Checkpoint(rawCount: int, messages: seq<Message>)

  datatype View = View(messages: seq<Message>, rawCount: nat, compaction: Option<Checkpoint>)

  /** messageView */
  function MessageView(raw: seq<Message>, checkpoint: Option<Checkpoint>): Result<View, SessionError> {
    match checkpoint
    case None => Ok(View(raw, |raw|, None))
    case Some(c) =>
      if c.rawCount < 0 then Err(NegativeRawCount)  // the source would panic; no store saves such a checkpoint
      else if c.rawCount > |raw| then Err(RawCountTooLarge)
      else Ok(View(c.messages + raw[c.rawCount..], |raw|, checkpoint))
  }

  datatype Record = Record(parent: string, messages: seq<Message>, compaction: Option<Checkpoint>)

  predicate Viewable(r: Record) {
    r.compaction.Some? ==> 0 <= r.compaction.value.rawCount <= |r.messages|
  }

  function StoredMessage(m: Message, freshID: string): Message {
    if m.id == "" then m.(id := freshID) else m
  }

  // ----- Forking -----

  function FirstWithID(ms: seq<Message>, id: string): (r: Option<nat>)
    ensures r.Some? ==> r.value < |ms| && ms[r.value].id == id && forall i :: 0 <= i < r.value ==> ms[i].id != id
    ensures r.None? <==> forall i :: 0 <= i < |ms| ==> ms[i].id != id
  {
    if ms == [] then None
    else if FirstWithID(ms[..|ms| - 1], id).Some? then FirstWithID(ms[..|ms| - 1], id)
    else if ms[|ms| - 1].id == id then Some(|ms| - 1)
    else None
  }

  predicate HasID(ms: seq<Message>, id: string) {
    exists i :: 0 <= i < |ms| && ms[i].id == id
  }

  /** There is a fork through this id: the empty id asks for all messages. */
  predicate Forkable(ms: seq<Message>, through: string) {
    through == "" || HasID(ms, through)
  }

  /** All messages, or those up to and including the first one with the id. */
  predicate IsFork(ms: seq<Message>, through: string, kept: seq<Message>) {
    && kept <= ms
    && (if through == "" then kept == ms
        else && kept != [] && kept[|kept| - 1].id == through
             && forall i :: 0 <= i < |kept| - 1 ==> kept[i].id != through)
  }

  function ForkPoint(ms: seq<Message>, through: string): (r: Option<nat>)
    ensures r.Some? <==> Forkable(ms, through)
    ensures r.Some? ==> r.value <= |ms| && IsFork(ms, through, ms[..r.value])
  {
    if through == "" then assert ms[..|ms|] == ms; Some(|ms|)
    else match FirstWithID(ms, through) case None => None case Some(i) => Some(i + 1)
  }

  /** There is one fork through an id. */
  lemma {:induction false} ForkUnique(ms: seq<Message>, through: string, a: seq<Message>, b: seq<Message>)
    requires IsFork(ms, through, a) && IsFork(ms, through, b)
    ensures a == b
  {
    if through != "" {
      assert |a| <= |b| ==> b[|a| - 1] == a[|a| - 1];
      assert |b| <= |a| ==> a[|b| - 1] == b[|b| - 1];
    }
  }

  /** forkMessages */
  method ForkMessages(ms: seq<Message>, through: string) returns (r: Option<seq<Message>>)
    ensures r.Some? <==> Forkable(ms, through)
    ensures r.Some? ==> IsFork(ms, through, r.value)
  {
    if through == "" {
      return Some(ms);
    }
    for i := 0 to |ms|
      invariant forall k :: 0 <= k < i ==> ms[k].id != through
    {
      if ms[i].id == through {
        return Some(ms[..i + 1]);
      }
    }
    return None;
  }

  // ----- Commands on a memory store -----

  datatype Command =
    | Create(id: string, parent: string)
    | Append(id: string, message: Message, freshID: string)
    | Save(id: string, checkpoint: Checkpoint)
    | Fork(id: string, parent: string, through: string, newID: string)

  type Memory = map<string, Record>

  function ParentOr(parent: string, id: string): string {
    if parent == "" then id else parent
  }

  /** The command is carried out. */
  predicate Accepted(mem: Memory, cmd: Command) {
    match cmd
    case Create(_, _) => true
    case Append(id, _, _) => id in mem
    case Save(id, c) => id in mem && 0 <= c.rawCount <= |mem[id].messages|
    case Fork(id, _, through, _) => id in mem && ForkPoint(mem[id].messages, through).Some?
  }

  function MemExec(mem: Memory, cmd: Command): Memory {
    if !Accepted(mem, cmd) then mem
    else
      match cmd
      case Create(id, parent) => mem[id := Record(parent, [], None)]
      case Append(id, m, freshID) =>
        mem[id := mem[id].(messages := mem[id].messages + [StoredMessage(m, freshID)])]
      case Save(id, c) => mem[id := mem[id].(compaction := Some(c))]
      case Fork(id, parent, through, newID) =>
        var n := ForkPoint(mem[id].messages, through).value;
        mem[newID := Record(ParentOr(parent, id), mem[id].messages[..n], None)]
  }

  /** New sessions get new ids. */
  predicate DrawsFresh(mem: Memory, cmd: Command) {
    match cmd
    case Create(id, _) => id !in mem
    case Fork(_, _, _, newID) => newID !in mem
    case _ => true
  }

  class MemoryStore {
    var sessions: Memory

    constructor ()
      ensures sessions == map[]
    {
      sessions := map[];
    }

    method CreateSession(id: string, parent: string)
      modifies this
      ensures sessions == MemExec(old(sessions), Create(id, parent))
    {
      sessions := sessions[id := Record(parent, [], None)];
    }

    method AppendMessage(id: string, m: Message, freshID: string) returns (ok: bool)
      modifies this
      ensures ok == Accepted(old(sessions), Append(id, m, freshID))
      ensures sessions == MemExec(old(sessions), Append(id, m, freshID))
    {
      var stored := if m.id == "" then m.(id := freshID) else m;
      if id !in sessions {
        return false;
      }
      var record := sessions[id];
      record := record.(messages := record.messages + [stored]);
      sessions := sessions[id := record];
      return true;
    }

    method SaveCompaction(id: string, c: Checkpoint) returns (r: Result<(), SessionError>)
      modifies this
      ensures r.Ok? == Accepted(old(sessions), Save(id, c))
      ensures sessions == MemExec(old(sessions), Save(id, c))
    {
      if c.rawCount < 0 {
        return Err(NegativeRawCount);
      }
      if id !in sessions {
        return Err(UnknownSession);
      }
      if c.rawCount > |sessions[id].messages| {
        return Err(RawCountTooLarge);
      }
      sessions := sessions[id := sessions[id].(compaction := Some(c))];
      return Ok(());
    }

    method ForkSession(id: string, parent: string, through: string, newID: string) returns (r: Result<(), SessionError>)
      modifies this
      ensures r.Ok? == Accepted(old(sessions), Fork(id, parent, through, newID))
      ensures sessions == MemExec(old(sessions), Fork(id, parent, through, newID))
    {
      if id !in sessions {
        return Err(UnknownSession);
      }
      var messages := ForkMessages(sessions[id].messages, through);
      if messages.None? {
        return Err(MessageNotFound);
      }
      ForkUnique(sessions[id].messages, through, messages.value,
                 sessions[id].messages[..ForkPoint(sessions[id].messages, through).value]);
      sessions := sessions[newID := Record(if parent == "" then id else parent, messages.value, None)];
      return Ok(());
    }

    method ReadView(id: string) returns (r: Result<View, SessionError>)
      ensures id !in sessions ==> r == Err(UnknownSession)
      ensures id in sessions ==> r == MessageView(sessions[id].messages, sessions[id].compaction)
    {
      if id !in sessions {
        return Err(UnknownSession);
      }
      return MessageView(sessions[id].messages, sessions[id].compaction);
    }
  }

  // ----- The log-structured store -----

  datatype Entry = SessionEntry(parent: string) | MessageEntry(message: Message) | CompactionEntry(checkpoint: Checkpoint)

  type Logs = map<string, seq<Entry>>

  /** What one entry adds to what was read so far. */
  function ReadEntry(r: Record, e: Entry): Record {
    match e
    case SessionEntry(parent) => r.(parent := parent)
    case MessageEntry(m) => r.(messages := r.messages + [m])
    case CompactionEntry(c) => r.(compaction := Some(c))
  }

  const EMPTY := Record("", [], None)

  function Read(log: seq<Entry>): Record {
    if log == [] then EMPTY else ReadEntry(Read(log[..|log| - 1]), log[|log| - 1])
  }

  function NormalizeBlock(b: Block, norm: string -> string): Block {
    if b.Use? then Use(b.use.(input := norm(b.use.input))) else b
  }

  function NormalizeBlocks(blocks: seq<Block>, norm: string -> string): seq<Block> {
    if blocks == [] then []
    else NormalizeBlocks(blocks[..|blocks| - 1], norm) + [NormalizeBlock(blocks[|blocks| - 1], norm)]
  }

  /** NormalizeTranscriptMessage */
  function NormalizeMessage(m: Message, norm: string -> string): Message {
    m.(content := NormalizeBlocks(m.content, norm))
  }

  function NormalizeAll(ms: seq<Message>, norm: string -> string): (r: seq<Message>)
    ensures |r| == |ms|
  {
    if ms == [] then [] else NormalizeAll(ms[..|ms| - 1], norm) + [NormalizeMessage(ms[|ms| - 1], norm)]
  }

  /** The entries that the append loop of a fork writes. */
  function Entries(ms: seq<Message>, norm: string -> string): seq<Entry> {
    if ms == [] then []
    else Entries(ms[..|ms| - 1], norm) + [MessageEntry(NormalizeMessage(ms[|ms| - 1], norm))]
  }

  predicate LogAccepted(logs: Logs, cmd: Command) {
    match cmd
    case Create(_, _) => true
    case Append(id, _, _) => id in logs
    case Save(id, c) => id in logs && 0 <= c.rawCount <= |Read(logs[id]).messages|
    case Fork(id, _, through, _) => id in logs && ForkPoint(Read(logs[id]).messages, through).Some?
  }

  function LogExec(logs: Logs, cmd: Command, norm: string -> string): Logs {
    if !LogAccepted(logs, cmd) then logs
    else
      match cmd
      case Create(id, parent) => logs[id := [SessionEntry(parent)]]
      case Append(id, m, freshID) =>
        logs[id := logs[id] + [MessageEntry(StoredMessage(NormalizeMessage(m, norm), freshID))]]
      case Save(id, c) => logs[id := logs[id] + [CompactionEntry(c)]]
      case Fork(id, parent, through, newID) =>
        var ms := Read(logs[id]).messages;
        var n := ForkPoint(ms, through).value;
        logs[newID := [SessionEntry(ParentOr(parent, id))] + Entries(ms[..n], norm)]
  }

  class JSONLStore {
    var logs: Logs

    constructor ()
      ensures logs == map[]
    {
      logs := map[];
    }

    method CreateSession(id: string, parent: string)
      modifies this
      ensures logs == old(logs)[id := [SessionEntry(parent)]]
    {
      logs := logs[id := [SessionEntry(parent)]];
    }

    method AppendMessage(id: string, m: Message, freshID: string, norm: string -> string) returns (ok: bool)
      modifies this
      ensures ok == LogAccepted(old(logs), Append(id, m, freshID))
      ensures logs == LogExec(old(logs), Append(id, m, freshID), norm)
    {
      var normalized := NormalizeMessage(m, norm);
      if normalized.id == "" {
        normalized := normalized.(id := freshID);
      }
      if id !in logs {
        return false;
      }
      logs := logs[id := logs[id] + [MessageEntry(normalized)]];
      return true;
    }

    /** readTranscript */
    method ReadTranscript(id: string) returns (r: Option<Record>)
      ensures r == if id in logs then Some(Read(logs[id])) else None
    {
      if id !in logs {
        return None;
      }
      var log := logs[id];
      var parent: string, messages: seq<Message>, compaction: Option<Checkpoint> := "", [], None;
      for i := 0 to |log|
        invariant Read(log[..i]) == Record(parent, messages, compaction)
      {
        assert log[..i + 1][..i] == log[..i];
        match log[i] {
          case SessionEntry(p) => parent := p;
          case CompactionEntry(c) => compaction := Some(c);
          case MessageEntry(m) => messages := messages + [m];
        }
      }
      assert log[..|log|] == log;
      return Some(Record(parent, messages, compaction));
    }

    method SaveCompaction(id: string, c: Checkpoint, norm: string -> string) returns (ok: bool)
      modifies this
      ensures ok == LogAccepted(old(logs), Save(id, c))
      ensures logs == LogExec(old(logs), Save(id, c), norm)
    {
      var transcript := ReadTranscript(id);
      if transcript.None? {
        return false;
      }
      if c.rawCount > |transcript.value.messages| {
        return false;
      }
      if c.rawCount < 0 {
        return false;
      }
      logs := logs[id := logs[id] + [CompactionEntry(c)]];
      return true;
    }

    /** Fork creates a session and appends the chosen messages to it one by one; they carry ids already. */
    method ForkSession(id: string, parent: string, through: string, newID: string, norm: string -> string) returns (ok: bool)
      requires newID !in logs && (id in logs ==> forall m :: m in Read(logs[id]).messages ==> m.id != "")
      modifies this
      ensures ok == LogAccepted(old(logs), Fork(id, parent, through, newID))
      ensures logs == LogExec(old(logs), Fork(id, parent, through, newID), norm)
    {
      hide Read;
      var transcript := ReadTranscript(id);
      if transcript.None? {
        return false;
      }
      var messages := ForkMessages(transcript.value.messages, through);
      if messages.None? {
        return false;
      }
      var ms := messages.value;
      ForkUnique(transcript.value.messages, through, ms,
                 transcript.value.messages[..ForkPoint(transcript.value.messages, through).value]);
      hide ForkPoint, IsFork;
      CreateSession(newID, if parent == "" then id else parent);
      ghost var base := [SessionEntry(ParentOr(parent, id))];
      assert base + Entries(ms[..0], norm) == base;
      for i := 0 to |ms|
        invariant logs == old(logs)[newID := base + Entries(ms[..i], norm)]
      {
        assert ms[i] in transcript.value.messages;
        var _ := AppendMessage(newID, ms[i], "", norm);
        OneEntryMore(base, ms, i, norm);
        hide Entries, NormalizeMessage;
      }
      assert ms[..|ms|] == ms;
      return true;
    }

    method ReadView(id: string) returns (r: Result<View, SessionError>)
      ensures id !in logs ==> r == Err(UnknownSession)
      ensures id in logs ==> r == MessageView(Read(logs[id]).messages, Read(logs[id]).compaction)
    {
      var transcript := ReadTranscript(id);
      if transcript.None? {
        return Err(UnknownSession);
      }
      return MessageView(transcript.value.messages, transcript.value.compaction);
    }
  }

  // ----- The log refines the memory store -----

  ghost predicate Idempotent(norm: string -> string) {
    forall s :: norm(norm(s)) == norm(s)
  }

  lemma {:induction false} OneEntryMore(base: seq<Entry>, ms: seq<Message>, i: nat, norm: string -> string)
    requires i < |ms| && ms[i].id != ""
    ensures base + Entries(ms[..i + 1], norm) ==
            base + Entries(ms[..i], norm) + [MessageEntry(StoredMessage(NormalizeMessage(ms[i], norm), ""))]
  {
    assert ms[..i + 1][..i] == ms[..i];
    assert StoredMessage(NormalizeMessage(ms[i], norm), "") == NormalizeMessage(ms[i], norm);
    hide NormalizeMessage;
    assert base + (Entries(ms[..i], norm) + [MessageEntry(NormalizeMessage(ms[i], norm))])
        == base + Entries(ms[..i], norm) + [MessageEntry(NormalizeMessage(ms[i], norm))];
  }

  function Normalized(r: Record, norm: string -> string): Record {
    r.(messages := NormalizeAll(r.messages, norm))
  }

  /** The log of every session reads as the session itself, with tool inputs normalised. */
  ghost predicate Agrees(mem: Memory, logs: Logs, norm: string -> string) {
    && (forall id :: id in mem <==> id in logs)
    && (forall id :: id in mem ==> id in logs && Read(logs[id]) == Normalized(mem[id], norm))
  }

  lemma {:induction false} ReadSnoc(log: seq<Entry>, e: Entry)
    ensures Read(log + [e]) == ReadEntry(Read(log), e)
  {
    assert (log + [e])[..|log|] == log;
  }

  lemma {:induction false} NormalizeSnoc(ms: seq<Message>, m: Message, norm: string -> string)
    ensures NormalizeAll(ms + [m], norm) == NormalizeAll(ms, norm) + [NormalizeMessage(m, norm)]
  {
    assert (ms + [m])[..|ms|] == ms;
  }

  lemma {:induction false} NormalizeAt(ms: seq<Message>, i: nat, norm: string -> string)
    requires i < |ms|
    ensures NormalizeAll(ms, norm)[i] == NormalizeMessage(ms[i], norm)
    decreases |ms|
  {
    hide NormalizeMessage;
    if i < |ms| - 1 {
      NormalizeAt(ms[..|ms| - 1], i, norm);
    }
  }

  lemma {:induction false} NormalizePrefix(ms: seq<Message>, n: nat, norm: string -> string)
    requires n <= |ms|
    ensures NormalizeAll(ms, norm)[..n] == NormalizeAll(ms[..n], norm)
    decreases |ms|
  {
    hide NormalizeMessage;
    if n == |ms| {
      assert ms[..n] == ms;
    } else {
      NormalizePrefix(ms[..|ms| - 1], n, norm);
      assert ms[..|ms| - 1][..n] == ms[..n];
    }
  }

  lemma {:induction false} NormalizeBlocksTwice(blocks: seq<Block>, norm: string -> string)
    requires Idempotent(norm)
    ensures NormalizeBlocks(NormalizeBlocks(blocks, norm), norm) == NormalizeBlocks(blocks, norm)
  {
    if blocks != [] {
      var front, last := blocks[..|blocks| - 1], blocks[|blocks| - 1];
      NormalizeBlocksTwice(front, norm);
      var once := NormalizeBlocks(blocks, norm);
      assert once[..|once| - 1] == NormalizeBlocks(front, norm);
    }
  }

  lemma {:induction false} NormalizeTwice(ms: seq<Message>, norm: string -> string)
    requires Idempotent(norm)
    ensures NormalizeAll(NormalizeAll(ms, norm), norm) == NormalizeAll(ms, norm)
  {
    if ms != [] {
      var front, last := ms[..|ms| - 1], ms[|ms| - 1];
      NormalizeTwice(front, norm);
      NormalizeBlocksTwice(last.content, norm);
      hide NormalizeBlocks;
      NormalizeSnoc(NormalizeAll(front, norm), NormalizeMessage(last, norm), norm);
    }
  }

  lemma {:induction false} EntriesSnoc(front: seq<Message>, m: Message, norm: string -> string)
    ensures Entries(front + [m], norm) == Entries(front, norm) + [MessageEntry(NormalizeMessage(m, norm))]
  {
    hide NormalizeMessage;
    assert (front + [m])[..|front|] == front;
  }

  lemma {:induction false} NoEntries(norm: string -> string)
    ensures Entries([], norm) == [] && NormalizeAll([], norm) == []
  {
  }

  lemma {:induction false} ReadEntries(base: seq<Entry>, ms: seq<Message>, norm: string -> string)
    ensures Read(base + Entries(ms, norm)) == Read(base).(messages := Read(base).messages + NormalizeAll(ms, norm))
    decreases |ms|
  {
    hide NormalizeMessage, Read, Entries, NormalizeAll;
    if ms == [] {
      NoEntries(norm);
      assert base + [] == base && Read(base).messages + [] == Read(base).messages;
    } else {
      var front, last := ms[..|ms| - 1], ms[|ms| - 1];
      var m := NormalizeMessage(last, norm);
      assert ms == front + [last];
      ReadEntries(base, front, norm);
      EntriesSnoc(front, last, norm);
      NormalizeSnoc(front, last, norm);
      assert base + (Entries(front, norm) + [MessageEntry(m)]) == (base + Entries(front, norm)) + [MessageEntry(m)];
      ReadSnoc(base + Entries(front, norm), MessageEntry(m));
      assert Read(base).messages + NormalizeAll(front, norm) + [m] == Read(base).messages + (NormalizeAll(front, norm) + [m]);
    }
  }

  lemma {:induction false} SameForkPoint(ms: seq<Message>, through: string, norm: string -> string)
    ensures ForkPoint(NormalizeAll(ms, norm), through) == ForkPoint(ms, through)
  {
    var normal := NormalizeAll(ms, norm);
    forall i | 0 <= i < |ms|
      ensures normal[i].id == ms[i].id
    {
      NormalizeAt(ms, i, norm);
    }
    hide NormalizeAll;
    var a, b := FirstWithID(normal, through), FirstWithID(ms, through);
    hide FirstWithID;
    if a.Some? && b.Some? {
      assert !(a.value < b.value) && !(b.value < a.value);
    }
  }

  lemma {:induction false} CreateAgrees(mem: Memory, logs: Logs, id: string, parent: string, norm: string -> string)
    requires Agrees(mem, logs, norm) && DrawsFresh(mem, Create(id, parent)) && Idempotent(norm)
    ensures Accepted(mem, Create(id, parent)) == LogAccepted(logs, Create(id, parent))
    ensures Agrees(MemExec(mem, Create(id, parent)), LogExec(logs, Create(id, parent), norm), norm)
  {
    hide Read, ForkPoint, NormalizeMessage, NormalizeAll, Idempotent;
    ReadSnoc([], SessionEntry(parent));
    assert [] + [SessionEntry(parent)] == [SessionEntry(parent)] && Read([]) == EMPTY by { ReadNothing(); }
    NoEntries(norm);
  }

  lemma {:induction false} AppendStepAgrees(mem: Memory, logs: Logs, id: string, m: Message, freshID: string, norm: string -> string)
    requires Agrees(mem, logs, norm) && DrawsFresh(mem, Append(id, m, freshID)) && Idempotent(norm)
    ensures Accepted(mem, Append(id, m, freshID)) == LogAccepted(logs, Append(id, m, freshID))
    ensures Agrees(MemExec(mem, Append(id, m, freshID)), LogExec(logs, Append(id, m, freshID), norm), norm)
  {
    hide Read, ForkPoint, NormalizeMessage, NormalizeAll, Idempotent;
    if id in mem {
      AppendAgrees(mem[id], logs[id], m, freshID, norm);
    }
  }

  lemma {:induction false} SaveAgrees(mem: Memory, logs: Logs, id: string, c: Checkpoint, norm: string -> string)
    requires Agrees(mem, logs, norm) && DrawsFresh(mem, Save(id, c)) && Idempotent(norm)
    ensures Accepted(mem, Save(id, c)) == LogAccepted(logs, Save(id, c))
    ensures Agrees(MemExec(mem, Save(id, c)), LogExec(logs, Save(id, c), norm), norm)
  {
    hide Read, ForkPoint, NormalizeMessage, NormalizeAll, Idempotent;
    if id in mem {
      ReadSnoc(logs[id], CompactionEntry(c));
    }
  }

  lemma {:induction false} ForkStepAgrees(mem: Memory, logs: Logs, id: string, parent: string, through: string, newID: string, norm: string -> string)
    requires Agrees(mem, logs, norm) && DrawsFresh(mem, Fork(id, parent, through, newID)) && Idempotent(norm)
    ensures Accepted(mem, Fork(id, parent, through, newID)) == LogAccepted(logs, Fork(id, parent, through, newID))
    ensures Agrees(MemExec(mem, Fork(id, parent, through, newID)), LogExec(logs, Fork(id, parent, through, newID), norm), norm)
  {
    hide Read, ForkPoint, NormalizeMessage, NormalizeAll, Idempotent;
    if id in mem {
      ForkAgrees(mem[id], logs[id], ParentOr(parent, id), through, norm);
    }
  }

  /** Both stores accept the same commands and stay in agreement. */
  lemma {:induction false} StepAgrees(mem: Memory, logs: Logs, cmd: Command, norm: string -> string)
    requires Agrees(mem, logs, norm) && DrawsFresh(mem, cmd) && Idempotent(norm)
    ensures Accepted(mem, cmd) == LogAccepted(logs, cmd)
    ensures Agrees(MemExec(mem, cmd), LogExec(logs, cmd, norm), norm)
  {
    hide *;
    match cmd
    case Create(id, parent) => CreateAgrees(mem, logs, id, parent, norm);
    case Append(id, m, freshID) => AppendStepAgrees(mem, logs, id, m, freshID, norm);
    case Save(id, c) => SaveAgrees(mem, logs, id, c, norm);
    case Fork(id, parent, through, newID) => ForkStepAgrees(mem, logs, id, parent, through, newID, norm);
  }

  lemma {:induction false} ReadNothing()
    ensures Read([]) == EMPTY
  {
  }

  lemma {:induction false} AppendAgrees(r: Record, log: seq<Entry>, m: Message, freshID: string, norm: string -> string)
    requires Read(log) == Normalized(r, norm)
    ensures Read(log + [MessageEntry(StoredMessage(NormalizeMessage(m, norm), freshID))]) ==
            Normalized(r.(messages := r.messages + [StoredMessage(m, freshID)]), norm)
  {
    ReadSnoc(log, MessageEntry(StoredMessage(NormalizeMessage(m, norm), freshID)));
    NormalizeSnoc(r.messages, StoredMessage(m, freshID), norm);
    hide Read, NormalizeAll;
  }

  lemma {:induction false} ForkAgrees(r: Record, log: seq<Entry>, parent: string, through: string, norm: string -> string)
    requires Read(log) == Normalized(r, norm) && Idempotent(norm)
    ensures ForkPoint(Read(log).messages, through) == ForkPoint(r.messages, through)
    ensures ForkPoint(r.messages, through).Some? ==>
              var n := ForkPoint(r.messages, through).value;
              Read([SessionEntry(parent)] + Entries(Read(log).messages[..n], norm)) ==
              Normalized(Record(parent, r.messages[..n], None), norm)
  {
    hide NormalizeAll, ForkPoint, Entries, Idempotent;
    SameForkPoint(r.messages, through, norm);
    if ForkPoint(r.messages, through).Some? {
      var n := ForkPoint(r.messages, through).value;
      NormalizePrefix(r.messages, n, norm);
      NormalizeTwice(r.messages[..n], norm);
      ReadEntries([SessionEntry(parent)], NormalizeAll(r.messages[..n], norm), norm);
      ReadSnoc([], SessionEntry(parent));
      assert [] + [SessionEntry(parent)] == [SessionEntry(parent)];
      assert Read([SessionEntry(parent)]) == Record(parent, [], None);
      hide Read;
      assert [] + NormalizeAll(r.messages[..n], norm) == NormalizeAll(r.messages[..n], norm);
    }
  }

  // ----- Whole runs -----

  function MemRun(mem: Memory, cmds: seq<Command>): Memory
    decreases |cmds|
  {
    if cmds == [] then mem else MemRun(MemExec(mem, cmds[0]), cmds[1..])
  }

  function LogRun(logs: Logs, cmds: seq<Command>, norm: string -> string): Logs
    decreases |cmds|
  {
    if cmds == [] then logs else LogRun(LogExec(logs, cmds[0], norm), cmds[1..], norm)
  }

  predicate AllFresh(mem: Memory, cmds: seq<Command>)
    decreases |cmds|
  {
    cmds == [] || (DrawsFresh(mem, cmds[0]) && AllFresh(MemExec(mem, cmds[0]), cmds[1..]))
  }

  lemma {:induction false} RunAgrees(mem: Memory, logs: Logs, cmds: seq<Command>, norm: string -> string)
    requires Agrees(mem, logs, norm) && AllFresh(mem, cmds) && Idempotent(norm)
    ensures Agrees(MemRun(mem, cmds), LogRun(logs, cmds, norm), norm)
    decreases |cmds|
  {
    hide Agrees, MemExec, LogExec, Idempotent;
    if cmds != [] {
      StepAgrees(mem, logs, cmds[0], norm);
      RunAgrees(MemExec(mem, cmds[0]), LogExec(logs, cmds[0], norm), cmds[1..], norm);
    }
  }

  ghost predicate AllViewable(mem: Memory) {
    forall id :: id in mem ==> Viewable(mem[id])
  }

  lemma {:induction false} RunViewable(mem: Memory, cmds: seq<Command>)
    requires AllViewable(mem)
    ensures AllViewable(MemRun(mem, cmds))
    decreases |cmds|
  {
    if cmds != [] {
      assert AllViewable(MemExec(mem, cmds[0])) by { hide ForkPoint; }
      hide AllViewable, MemExec;
      RunViewable(MemExec(mem, cmds[0]), cmds[1..]);
    }
  }

  /** After any commands both stores know the same sessions, read the same messages, and can give every view. */
  lemma {:induction false} StoresAgree(cmds: seq<Command>, norm: string -> string)
    requires AllFresh(map[], cmds) && Idempotent(norm)
    ensures var mem, logs := MemRun(map[], cmds), LogRun(map[], cmds, norm);
            && Agrees(mem, logs, norm)
            && forall id :: id in mem ==>
                 && MessageView(mem[id].messages, mem[id].compaction).Ok?
                 && id in logs && MessageView(Read(logs[id]).messages, Read(logs[id]).compaction).Ok?
  {
    RunAgrees(map[], map[], cmds, norm);
    RunViewable(map[], cmds);
    hide MemRun, LogRun, Read, NormalizeAll, Idempotent;
  }

  // ----- What a fork holds -----

  /** A session of its own: the fork's messages, the parent asked for or else the source, no checkpoint. */
  predicate ForkedFrom(source: Record, id: string, parent: string, through: string, r: Record) {
    && IsFork(source.messages, through, r.messages)
    && r.parent == (if parent == "" then id else parent)
    && r.compaction.None?
  }

  /** The session that a command creates or changes. */
  function Target(cmd: Command): string {
    if cmd.Fork? then cmd.newID else cmd.id
  }

  predicate Spares(cmds: seq<Command>, id: string) {
    forall i :: 0 <= i < |cmds| ==> Target(cmds[i]) != id
  }

  lemma {:induction false} RunSpares(mem: Memory, cmds: seq<Command>, id: string)
    requires Spares(cmds, id)
    ensures id in MemRun(mem, cmds) <==> id in mem
    ensures id in mem ==> MemRun(mem, cmds)[id] == mem[id]
    decreases |cmds|
  {
    if cmds != [] {
      assert Target(cmds[0]) != id;
      assert (id in MemExec(mem, cmds[0]) <==> id in mem) && (id in mem ==> MemExec(mem, cmds[0])[id] == mem[id]) by {
        hide ForkPoint;
      }
      hide MemExec;
      RunSpares(MemExec(mem, cmds[0]), cmds[1..], id);
    }
  }

  lemma {:induction false} RunsJoin(mem: Memory, a: seq<Command>, b: seq<Command>)
    ensures MemRun(mem, a + b) == MemRun(MemRun(mem, a), b)
    ensures AllFresh(mem, a + b) <==> AllFresh(mem, a) && AllFresh(MemRun(mem, a), b)
    decreases |a|
  {
    hide MemExec, DrawsFresh;
    if a == [] {
      assert a + b == b;
    } else {
      assert (a + b)[1..] == a[1..] + b;
      RunsJoin(MemExec(mem, a[0]), a[1..], b);
    }
  }

  lemma {:induction false} ForkExec(mem: Memory, id: string, parent: string, through: string, newID: string)
    ensures var after := MemExec(mem, Fork(id, parent, through, newID));
            if id in mem && Forkable(mem[id].messages, through)
            then newID in after && ForkedFrom(mem[id], id, parent, through, after[newID])
            else after == mem
  {
  }

  lemma {:induction false} OneCommand(mem: Memory, cmd: Command, rest: seq<Command>)
    ensures MemRun(mem, [cmd] + rest) == MemRun(MemExec(mem, cmd), rest)
  {
    hide MemExec;
    assert ([cmd] + rest)[1..] == rest;
  }

  /** A fork taken after any commands, read after any more that leave it alone. */
  lemma {:induction false} ForkHolds(
      cmds: seq<Command>, id: string, parent: string, through: string, newID: string, more: seq<Command>)
    requires Spares(more, newID)
    ensures var mem, after := MemRun(map[], cmds), MemRun(map[], cmds + ([Fork(id, parent, through, newID)] + more));
            if id in mem && Forkable(mem[id].messages, through)
            then newID in after && ForkedFrom(mem[id], id, parent, through, after[newID])
            else after == MemRun(mem, more)
  {
    var mem, fork := MemRun(map[], cmds), Fork(id, parent, through, newID);
    RunsJoin(map[], cmds, [fork] + more);
    OneCommand(mem, fork, more);
    ForkExec(mem, id, parent, through, newID);
    hide MemExec, MemRun, ForkedFrom, Forkable;
    if id in mem && Forkable(mem[id].messages, through) {
      RunSpares(MemExec(mem, fork), more, newID);
    }
  }

  lemma {:induction false} NormalizedIDs(ms: seq<Message>, norm: string -> string)
    ensures forall i :: 0 <= i < |ms| ==> NormalizeAll(ms, norm)[i].id == ms[i].id
  {
    forall i | 0 <= i < |ms|
      ensures NormalizeAll(ms, norm)[i].id == ms[i].id
    {
      NormalizeAt(ms, i, norm);
    }
  }

  /** Normalising does not move a fork. */
  lemma {:induction false} NormalizedFork(ms: seq<Message>, through: string, kept: seq<Message>, norm: string -> string)
    requires IsFork(ms, through, kept)
    ensures IsFork(NormalizeAll(ms, norm), through, NormalizeAll(kept, norm))
  {
    hide NormalizeAll;
    NormalizedIDs(ms, norm);
    NormalizedIDs(kept, norm);
    assert kept == ms[..|kept|];
    NormalizePrefix(ms, |kept|, norm);
  }

  /** A session with the new id is there exactly when the fork was taken. */
  lemma {:induction false} ForkIsNew(
      cmds: seq<Command>, id: string, parent: string, through: string, newID: string, more: seq<Command>)
    requires Spares(more, newID) && AllFresh(map[], cmds + ([Fork(id, parent, through, newID)] + more))
    ensures AllFresh(map[], cmds) && newID !in MemRun(MemRun(map[], cmds), more)
  {
    RunsJoin(map[], cmds, [Fork(id, parent, through, newID)] + more);
    RunSpares(MemRun(map[], cmds), more, newID);
    hide MemExec, MemRun;
  }

  /** A fork of what the log reads. */
  lemma {:induction false} AgreedFork(
      source: Record, log: seq<Entry>, id: string, parent: string, through: string, r: Record, forkLog: seq<Entry>, norm: string -> string)
    requires ForkedFrom(source, id, parent, through, r)
    requires Read(log) == Normalized(source, norm) && Read(forkLog) == Normalized(r, norm)
    ensures ForkedFrom(Read(log), id, parent, through, Read(forkLog))
  {
    hide Read, NormalizeAll, IsFork;
    NormalizedFork(source.messages, through, r.messages, norm);
  }

  lemma {:induction false} ForkableAgrees(source: Record, log: seq<Entry>, through: string, norm: string -> string)
    requires Read(log) == Normalized(source, norm)
    ensures Forkable(Read(log).messages, through) <==> Forkable(source.messages, through)
  {
    hide Read, NormalizeAll, Forkable;
    SameForkPoint(source.messages, through, norm);
    assert ForkPoint(source.messages, through).Some? <==> Forkable(source.messages, through);
    assert ForkPoint(Read(log).messages, through).Some? <==> Forkable(Read(log).messages, through);
  }

  /** The same of the log-structured store: its fork is one of the messages it reads, and there is none otherwise. */
  lemma {:induction false} LoggedForkHolds(
      cmds: seq<Command>, id: string, parent: string, through: string, newID: string, more: seq<Command>, norm: string -> string)
    requires Spares(more, newID) && Idempotent(norm) && AllFresh(map[], cmds + ([Fork(id, parent, through, newID)] + more))
    ensures var all := cmds + ([Fork(id, parent, through, newID)] + more);
            var logs, after := LogRun(map[], cmds, norm), LogRun(map[], all, norm);
            && (newID in after <==> id in logs && Forkable(Read(logs[id]).messages, through))
            && (newID in after ==> ForkedFrom(Read(logs[id]), id, parent, through, Read(after[newID])))
  {
    hide MemRun, LogRun, Read, NormalizeAll, Normalized, Idempotent, AllFresh, Forkable, ForkedFrom, Spares;
    var all := cmds + ([Fork(id, parent, through, newID)] + more);
    ForkHolds(cmds, id, parent, through, newID, more);
    ForkIsNew(cmds, id, parent, through, newID, more);
    RunAgrees(map[], map[], cmds, norm);
    RunAgrees(map[], map[], all, norm);
    var mem, mem' := MemRun(map[], cmds), MemRun(map[], all);
    var logs, after := LogRun(map[], cmds, norm), LogRun(map[], all, norm);
    if id in mem {
      ForkableAgrees(mem[id], logs[id], through, norm);
      if Forkable(mem[id].messages, through) {
        AgreedFork(mem[id], logs[id], id, parent, through, mem'[newID], after[newID], norm);
      }
    }
  }

  // ----- What a view goes on with -----

  /** Appended messages keep everything, and get an id only if they have none. */
  predicate StoredAs(cmd: Command, stored: Message)
    requires cmd.Append?
  {
    && stored.(id := cmd.message.id) == cmd.message
    && stored.id == (if cmd.message.id != "" then cmd.message.id else cmd.freshID)
  }

  predicate AppendsTo(cmds: seq<Command>, id: string) {
    forall i :: 0 <= i < |cmds| ==> cmds[i].Append? && cmds[i].id == id
  }

  lemma {:induction false} AppendsRun(mem: Memory, id: string, cmds: seq<Command>) returns (added: seq<Message>)
    requires id in mem && AppendsTo(cmds, id)
    ensures |added| == |cmds| && forall i :: 0 <= i < |cmds| ==> StoredAs(cmds[i], added[i])
    ensures MemRun(mem, cmds) == mem[id := mem[id].(messages := mem[id].messages + added)]
    decreases |cmds|
  {
    if cmds == [] {
      added := [];
      assert mem[id].messages + [] == mem[id].messages;
    } else {
      var m := StoredMessage(cmds[0].message, cmds[0].freshID);
      var next := MemExec(mem, cmds[0]);
      assert next == mem[id := mem[id].(messages := mem[id].messages + [m])] by { hide ForkPoint; }
      assert StoredAs(cmds[0], m);
      hide MemExec, StoredAs;
      var rest := AppendsRun(next, id, cmds[1..]);
      added := [m] + rest;
      assert mem[id].messages + [m] + rest == mem[id].messages + added;
    }
  }

  /**
    After a checkpoint of the first messages is saved, the view is its messages, the later ones, and
    whatever is appended, in order; the transcript itself loses nothing.
   */
  lemma {:induction false} ViewGoesOn(mem: Memory, id: string, c: Checkpoint, appends: seq<Command>) returns (added: seq<Message>)
    requires id in mem && 0 <= c.rawCount <= |mem[id].messages| && AppendsTo(appends, id)
    ensures |added| == |appends| && forall i :: 0 <= i < |appends| ==> StoredAs(appends[i], added[i])
    ensures var raw, after := mem[id].messages, MemRun(mem, [Save(id, c)] + appends);
            && id in after && after[id].messages == raw + added && after[id].parent == mem[id].parent
            && MessageView(after[id].messages, after[id].compaction) ==
               Ok(View(c.messages + raw[c.rawCount..] + added, |raw| + |added|, Some(c)))
  {
    OneCommand(mem, Save(id, c), appends);
    var saved := MemExec(mem, Save(id, c));
    assert saved == mem[id := mem[id].(compaction := Some(c))] by { hide ForkPoint; }
    hide MemExec, MemRun, StoredAs;
    added := AppendsRun(saved, id, appends);
    var raw := mem[id].messages;
    assert c.messages + (raw + added)[c.rawCount..] == c.messages + raw[c.rawCount..] + added;
  }

  // ----- When the stores agree exactly -----

  ghost predicate AllNormal(ms: seq<Message>, norm: string -> string) {
    forall i :: 0 <= i < |ms| ==> NormalizeMessage(ms[i], norm) == ms[i]
  }

  lemma {:induction false} NormalIff(ms: seq<Message>, norm: string -> string)
    ensures NormalizeAll(ms, norm) == ms <==> AllNormal(ms, norm)
  {
    hide NormalizeAll, NormalizeMessage;
    forall i | 0 <= i < |ms|
      ensures NormalizeAll(ms, norm)[i] == NormalizeMessage(ms[i], norm)
    {
      NormalizeAt(ms, i, norm);
    }
  }

  lemma {:induction false} NormalizeSuffix(ms: seq<Message>, n: nat, norm: string -> string)
    requires n <= |ms|
    ensures NormalizeAll(ms, norm)[n..] == NormalizeAll(ms[n..], norm)
  {
    hide NormalizeAll, NormalizeMessage;
    forall i | 0 <= i < |ms| - n
      ensures NormalizeAll(ms, norm)[n..][i] == NormalizeAll(ms[n..], norm)[i]
    {
      NormalizeAt(ms, n + i, norm);
      NormalizeAt(ms[n..], i, norm);
    }
  }

  /** The messages a view takes from the transcript itself. */
  function BehindCheckpoint(r: Record): seq<Message>
    requires Viewable(r)
  {
    if r.compaction.None? then r.messages else r.messages[r.compaction.value.rawCount..]
  }

  lemma {:induction false} ViewsEqualIff(r: Record, norm: string -> string)
    requires Viewable(r)
    ensures MessageView(Normalized(r, norm).messages, r.compaction) == MessageView(r.messages, r.compaction) <==>
            AllNormal(BehindCheckpoint(r), norm)
  {
    hide NormalizeAll, AllNormal;
    var behind := BehindCheckpoint(r);
    NormalIff(behind, norm);
    if r.compaction.Some? {
      var c := r.compaction.value;
      NormalizeSuffix(r.messages, c.rawCount, norm);
      assert (c.messages + NormalizeAll(behind, norm))[|c.messages|..] == NormalizeAll(behind, norm);
      assert (c.messages + behind)[|c.messages|..] == behind;
    }
  }

  /**
    After any commands, the two stores hold the same record of a session exactly when all its messages
    are normal, and give the same view exactly when the messages behind its checkpoint are.
   */
  lemma {:induction false} StoresEqualIff(cmds: seq<Command>, id: string, norm: string -> string)
    requires AllFresh(map[], cmds) && Idempotent(norm) && id in MemRun(map[], cmds)
    ensures var r, logs := MemRun(map[], cmds)[id], LogRun(map[], cmds, norm);
            && id in logs && Viewable(r)
            && (Read(logs[id]) == r <==> AllNormal(r.messages, norm))
            && (MessageView(Read(logs[id]).messages, Read(logs[id]).compaction) == MessageView(r.messages, r.compaction) <==>
                AllNormal(BehindCheckpoint(r), norm))
  {
    RunAgrees(map[], map[], cmds, norm);
    RunViewable(map[], cmds);
    hide MemRun, LogRun, Read, NormalizeAll, Idempotent, AllNormal, MessageView;
    var r := MemRun(map[], cmds)[id];
    NormalIff(r.messages, norm);
    ViewsEqualIff(r, norm);
  }

  /** One appended tool use whose input is not normal: the records differ, and so do the views. */
  lemma {:induction false} StoresDiffer(use: ToolUse, m: Message, norm: string -> string)
    requires norm(use.input) != use.input && Idempotent(norm) && m == Message("m", Assistant, [Use(use)], None, false)
    ensures var cmds := [Create("s", ""), Append("s", m, "")];
            && AllFresh(map[], cmds) && "s" in MemRun(map[], cmds)
            && MemRun(map[], cmds)["s"].messages == [m] && !AllNormal([m], norm)
            && "s" in LogRun(map[], cmds, norm)
            && var kept, read := MemRun(map[], cmds)["s"], Read(LogRun(map[], cmds, norm)["s"]);
            && read != kept && MessageView(read.messages, read.compaction) != MessageView(kept.messages, kept.compaction)
  {
    var cmds := [Create("s", ""), Append("s", m, "")];
    var created: Memory := map["s" := Record("", [], None)];
    assert cmds[1..] == [Append("s", m, "")] && cmds[1..][1..] == [];
    assert MemExec(map[], cmds[0]) == created;
    assert [] + [m] == [m];
    assert MemExec(created, cmds[1]) == created["s" := Record("", [m], None)];
    assert MemRun(created, cmds[1..]) == MemRun(MemExec(created, cmds[1]), []);
    assert MemRun(map[], cmds)["s"] == Record("", [m], None);
    assert AllFresh(created, cmds[1..]);
    UseIsNotNormal(use, m, norm);
    hide MemRun, AllNormal, Read, Idempotent;
    StoresEqualIff(cmds, "s", norm);
  }

  lemma {:induction false} UseIsNotNormal(use: ToolUse, m: Message, norm: string -> string)
    requires norm(use.input) != use.input && m.content == [Use(use)]
    ensures !AllNormal([m], norm)
  {
    assert [Use(use)][..0] == [];
    assert NormalizeBlocks([Use(use)], norm) == NormalizeBlocks([Use(use)][..0], norm) + [NormalizeBlock(Use(use), norm)];
    assert NormalizeMessage(m, norm).content[0] != m.content[0];
    assert [m][0] == m;
  }
}
