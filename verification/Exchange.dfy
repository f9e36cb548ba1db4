/**
 * The Exchange migrator: mailboxes, folders, chunks of items; resumable by whole folders.
 *
 * As for a drive, what survives a crash is kept apart from the memory of one run, and everything the
 * outside world answers comes from a script.
 */
module Exchange {
  import opened Wrappers
  import opened Jobs
  import opened Replies

  type Id = nat

  // ----- the source -----

  /** An entry of an item feed; a removed one is not replayed. */
  datatype Entry = Entry(item: Id, removed: bool)

  /** `matched`: the destination has a mailbox of the same type. */
  datatype Mailbox = Mailbox(matched: bool, folders: seq<Id>)

  datatype Source = Source(mailboxes: seq<Mailbox>, entries: Id -> seq<Entry>)

  function Added(entries: seq<Entry>): seq<Id> {
    if entries == [] then []
    else (if entries[0].removed then [] else [entries[0].item]) + Added(entries[1..])
  }

  // ----- chunks -----

  const MAX_EXPORT_BATCH := 20

  function Chunks<T>(xs: seq<T>, size: nat): seq<seq<T>>
    requires size > 0
  {
    if xs == [] then []
    else
      var n := if |xs| < size then |xs| else size;
      [xs[..n]] + Chunks(xs[n..], size)
  }

  /** A step of zero is an error, a negative one yields nothing. */
  function ChunkItemIds<T>(ids: seq<T>, size: int): Option<seq<seq<T>>> {
    var step := if size < MAX_EXPORT_BATCH then size else MAX_EXPORT_BATCH;
    if step == 0 then None else if step < 0 then Some([]) else Some(Chunks(ids, step))
  }

  // ----- exports -----

  /** An entry of an export response; `size` is the length of its data, absent data being empty. */
  datatype ExportEntry = ExportEntry(item: Option<Id>, failed: bool, size: nat)

  datatype Exported = Exported(item: Id, size: nat)

  datatype Split = Split(exported: seq<Exported>, errors: seq<Option<Id>>)

  /** Entries sorted into exported items and errors; an exported one without an id is a crash of the parser. */
  function SplitFrom(entries: seq<ExportEntry>, acc: Split): Option<Split> {
    if entries == [] then Some(acc)
    else
      var e := entries[0];
      if e.failed || e.size == 0 then SplitFrom(entries[1..], acc.(errors := acc.errors + [e.item]))
      else if e.item.None? then None
      else SplitFrom(entries[1..], acc.(exported := acc.exported + [Exported(e.item.value, e.size)]))
  }

  // ----- checkpoints and state -----

  datatype Checkpoint = Checkpoint(
    foldersDone: seq<Id>,
    folderMap: map<Id, Id>,
    itemDeltas: map<Id, string>,
    folderLink: Option<string>,  // one for all mailboxes
    progress: int,
    bytes: int)

  const EMPTY := Checkpoint([], map[], map[], None, 0, 0)

  datatype ItemStatus = ItemSkipped | ItemFailed

  datatype Record = Record(item: Option<Id>, status: ItemStatus)

  datatype Import = Import(item: Id, folder: Id, update: bool)

  datatype State = State(
    // survives a crash
    persisted: Checkpoint,
    sent: seq<Record>,        // item records delivered
    imports: seq<Import>,  // successful imports, oldest first
    // memory of the run
    cp: Checkpoint,        // store.checkpoint, whose cursor is changed in place
    progress: int,
    succeeded: int,
    bytes: int,
    buffer: seq<Record>,      // unsent item records
    cancelled: bool,
    // history of the run
    logged: seq<Record>,      // every call of `log_item`
    dropped: seq<Record>)     // the batch of a send that had no effect

  datatype ChunkScript = ChunkScript(
    stop: bool, reply: Reply, entries: seq<ExportEntry>, imports: nat -> nat -> Attempt, beat: Beat)

  datatype FolderScript = FolderScript(
    stop: bool, newId: Id, create: Reply, enumeration: Reply, deltaLink: Option<string>,
    chunks: nat -> ChunkScript, beat: Beat)

  datatype MailboxScript = MailboxScript(
    stop: bool, enumeration: Reply, folderLink: Option<string>, folders: nat -> FolderScript)

  datatype Script = Script(
    opening: Reply,
    resolution: Reply,
    mailboxes: nat -> MailboxScript,
    closingItems: Reply,
    closingProgress: Reply,
    closingFlush: Reply,
    workerItems: Reply,
    workerFlush: Reply)

  datatype Settings = Settings(isDelta: bool, maxRetries: int, flushSize: nat)

  datatype Result = Result(s: State, exit: Exit)

  // ----- the job context -----

  function FlushItems(s: State, r: Reply): Result {
    if s.buffer == [] then Result(s, Go)
    else if TookEffect(r) then Result(s.(buffer := [], sent := s.sent + s.buffer), ControlExit(r))
    else Result(s.(buffer := [], dropped := s.dropped + s.buffer), ControlExit(r))
  }

  function Flush(s: State, r: Reply): Result {
    Result(if TookEffect(r) then s.(persisted := s.cp) else s, ControlExit(r))
  }

  function Heartbeat(s: State, b: Beat, flushSize: nat): Result {
    var u := s.(cp := s.cp.(progress := s.progress, bytes := s.bytes));
    var r0 := if b.flushDue then Flush(u, b.flush) else Result(u, Go);
    if r0.exit != Go then r0
    else
      var r1 := if |r0.s.buffer| >= flushSize then FlushItems(r0.s, b.items) else r0;
      if r1.exit != Go then r1
      else Result(r1.s.(cancelled := r1.s.cancelled || b.cancelSeen), ControlExit(b.progress))
  }

  function Logging(s: State, records: seq<Record>): State {
    s.(buffer := s.buffer + records, logged := s.logged + records)
  }

  // ----- one chunk -----

  datatype ImportResult = ImportResult(ok: bool, s: State, exit: Exit)

  /** Tries numbered from `k`; `auth` says whether the last failure was a rejected token. */
  function ImportOne(s: State, c: Settings, item: Id, dst: Id, attempts: nat -> Attempt, k: nat,
                     auth: bool): ImportResult
    decreases c.maxRetries + 1 - k
  {
    if k <= c.maxRetries then
      match attempts(k)
      case Succeeded => ImportResult(true, s.(imports := s.imports + [Import(item, dst, c.isDelta)]), Go)
      case Fatal(st) => ImportResult(false, s, Raised(Graph(st)))
      case Unexpected => ImportResult(false, s, Raised(Other))
      case Dead => ImportResult(false, s, Killed)
      case Transient(a) => ImportOne(s, c, item, dst, attempts, k + 1, a)
    else if auth then ImportResult(false, s, Raised(Graph(AuthExpired)))
    else ImportResult(false, Logging(s, [Record(Some(item), ItemFailed)]), Go)
  }

  function Credited(s: State, size: nat): State {
    s.(progress := s.progress + 1, succeeded := s.succeeded + 1, bytes := s.bytes + size * 3 / 4)
  }

  function ImportThenCredit(s: State, c: Settings, item: Exported, dst: Id, attempts: nat -> Attempt): Result {
    var r := ImportOne(s, c, item.item, dst, attempts, 0, false);
    Result(if r.exit == Go && r.ok then Credited(r.s, item.size) else r.s, r.exit)
  }

  function ImportAll(s: State, c: Settings, items: seq<Exported>, j: nat, dst: Id,
                     imports: nat -> nat -> Attempt): Result
    requires j <= |items|
    decreases |items| - j
  {
    if j == |items| then Result(s, Go)
    else
      var r := ImportThenCredit(s, c, items[j], dst, imports(j));
      if r.exit != Go then r else ImportAll(r.s, c, items, j + 1, dst, imports)
  }

  function SkippedRecords(errors: seq<Option<Id>>): seq<Record> {
    seq(|errors|, i requires 0 <= i < |errors| => Record(errors[i], ItemSkipped))
  }

  datatype Exporting = Exporting(exit: Exit, split: Split)

  /** `export_items`: nothing for no ids, and too many are refused. */
  function Exports(ids: seq<Id>, ch: ChunkScript): Exporting {
    var none := Split([], []);
    if ids == [] then Exporting(Go, none)
    else if |ids| > MAX_EXPORT_BATCH then Exporting(Raised(Other), none)
    else if ch.reply != Ok then Exporting(GraphExit(ch.reply), none)
    else
      var split := SplitFrom(ch.entries, none);
      if split.None? then Exporting(Raised(Other), none) else Exporting(Go, split.value)
  }

  /** `_process_export_batch` */
  function OneChunk(s: State, c: Settings, ids: seq<Id>, dst: Id, ch: ChunkScript): Result {
    var x := Exports(ids, ch);
    if x.exit != Go then Result(s, x.exit)
    else ImportAll(Logging(s, SkippedRecords(x.split.errors)), c, x.split.exported, 0, dst, ch.imports)
  }

  function ChunkThenBeat(s: State, c: Settings, ids: seq<Id>, dst: Id, ch: ChunkScript): Result {
    var r := OneChunk(s, c, ids, dst, ch);
    if r.exit != Go then r else Heartbeat(r.s, ch.beat, c.flushSize)
  }

  // ----- folders and mailboxes -----

  /** Stopping between two chunks is not told apart from finishing. */
  function CopyChunks(s: State, c: Settings, chunks: seq<seq<Id>>, k: nat, dst: Id, script: nat -> ChunkScript): Result
    requires k <= |chunks|
    decreases |chunks| - k
  {
    if k == |chunks| || s.cancelled || script(k).stop then Result(s, Go)
    else
      var r := ChunkThenBeat(s, c, chunks[k], dst, script(k));
      if r.exit != Go then r else CopyChunks(r.s, c, chunks, k + 1, dst, script)
  }

  /** `_migrate_folder_items` */
  function FolderItems(s: State, c: Settings, folder: Id, entries: seq<Entry>, dst: Id, f: FolderScript): Result {
    if f.enumeration != Ok then Result(s, GraphExit(f.enumeration))
    else
      var r := CopyChunks(s, c, Chunks(Added(entries), MAX_EXPORT_BATCH), 0, dst, f.chunks);
      if r.exit == Go && f.deltaLink.Some?
      then Result(r.s.(cp := r.s.cp.(itemDeltas := r.s.cp.itemDeltas[folder := f.deltaLink.value])), Go)
      else r
  }

  datatype Ensured = Ensured(s: State, exit: Exit, dst: Id)

  function EnsureFolder(s: State, folder: Id, f: FolderScript): Ensured {
    if folder in s.cp.folderMap then Ensured(s, Go, s.cp.folderMap[folder])
    else if f.create != Ok then Ensured(s, GraphExit(f.create), f.newId)
    else Ensured(s.(cp := s.cp.(folderMap := s.cp.folderMap[folder := f.newId])), Go, f.newId)
  }

  function MarkedDone(s: State, c: Settings, folder: Id): State {
    if c.isDelta || folder in s.cp.foldersDone then s
    else s.(cp := s.cp.(foldersDone := s.cp.foldersDone + [folder]))
  }

  function OneFolder(s: State, c: Settings, folder: Id, entries: seq<Entry>, f: FolderScript): Result {
    if folder in s.cp.foldersDone && !c.isDelta then Result(s, Go)
    else
      var e := EnsureFolder(s, folder, f);
      if e.exit != Go then Result(e.s, e.exit)
      else
        var r := FolderItems(e.s, c, folder, entries, e.dst, f);
        if r.exit != Go then r else Heartbeat(MarkedDone(r.s, c, folder), f.beat, c.flushSize)
  }

  datatype LoopResult = LoopResult(s: State, exit: Exit, stopped: bool)

  function CopyFolders(s: State, c: Settings, src: Source, folders: seq<Id>, i: nat,
                       script: nat -> FolderScript): LoopResult
    requires i <= |folders|
    decreases |folders| - i
  {
    if i == |folders| then LoopResult(s, Go, false)
    else if s.cancelled || script(i).stop then LoopResult(s, Go, true)
    else
      var r := OneFolder(s, c, folders[i], src.entries(folders[i]), script(i));
      if r.exit != Go then LoopResult(r.s, r.exit, false) else CopyFolders(r.s, c, src, folders, i + 1, script)
  }

  /** `_migrate_mailbox` */
  function OneMailbox(s: State, c: Settings, src: Source, folders: seq<Id>, m: MailboxScript): Result {
    if m.enumeration != Ok then Result(s, GraphExit(m.enumeration))
    else
      var r := CopyFolders(s, c, src, folders, 0, m.folders);
      if r.exit == Go && !r.stopped && m.folderLink.Some?
      then Result(r.s.(cp := r.s.cp.(folderLink := m.folderLink)), Go)
      else Result(r.s, r.exit)
  }

  function CopyMailboxes(s: State, c: Settings, src: Source, i: nat, script: nat -> MailboxScript): LoopResult
    requires i <= |src.mailboxes|
    decreases |src.mailboxes| - i
  {
    if i == |src.mailboxes| then LoopResult(s, Go, false)
    else if s.cancelled || script(i).stop then LoopResult(s, Go, true)
    else if !src.mailboxes[i].matched then CopyMailboxes(s, c, src, i + 1, script)
    else
      var r := OneMailbox(s, c, src, src.mailboxes[i].folders, script(i));
      if r.exit != Go then LoopResult(r.s, r.exit, false) else CopyMailboxes(r.s, c, src, i + 1, script)
  }

  // ----- a whole run -----

  function Closing(s: State, script: Script): Result {
    var r := FlushItems(s, script.closingItems);
    if r.exit != Go then r
    else if ControlExit(script.closingProgress) != Go then Result(r.s, ControlExit(script.closingProgress))
    else Flush(r.s, script.closingFlush)
  }

  /** Exit `Go` is a return: of COMPLETED, or of the running status if `stopped`. */
  function Run(s: State, c: Settings, src: Source, script: Script): LoopResult {
    if script.opening != Ok then LoopResult(s, ControlExit(script.opening), false)
    else if script.resolution != Ok then LoopResult(s, GraphExit(script.resolution), false)
    else
      var r := CopyMailboxes(s, c, src, 0, script.mailboxes);
      if r.exit != Go || r.stopped then r
      else
        var q := Closing(r.s, script);
        LoopResult(q.s, q.exit, false)
  }

  /** A new context over the persisted checkpoint. */
  function Loaded(s: State): State {
    s.(cp := s.persisted, progress := s.persisted.progress, succeeded := 0, bytes := s.persisted.bytes,
       buffer := [], cancelled := false, logged := [], dropped := [])
  }

  /** The flushes the worker makes after the migrator returned or raised. */
  function Epilogue(r: LoopResult, script: Script): Result {
    if r.exit == Go then Flush(r.s, script.workerFlush)
    else if r.exit.Raised? && r.exit.exn.Graph? then
      var q := FlushItems(r.s, script.workerItems);
      if q.exit != Go then Result(q.s, if q.exit == Killed then Killed else r.exit)
      else
        var w := Flush(q.s, script.workerFlush);
        Result(w.s, if w.exit == Killed then Killed else r.exit)
    else Result(r.s, r.exit)
  }

  /** One handling of a dispatch message, from the persisted checkpoint on. */
  function Handled(s: State, c: Settings, src: Source, script: Script): Result {
    Epilogue(Run(Loaded(s), c, src, script), script)
  }

  // ----- the migrator itself -----

  /** The loop of `export_items` over the entries of its response. */
  method ExportItems(ids: seq<Id>, ch: ChunkScript) returns (exit: Exit, split: Split)
    ensures Exporting(exit, split) == Exports(ids, ch)
  {
    split := Split([], []);
    if ids == [] { return Go, split; }
    if |ids| > MAX_EXPORT_BATCH { return Raised(Other), split; }
    exit := GraphExit(ch.reply);
    if exit != Go { return; }
    var exported, errors := [], [];
    for i := 0 to |ch.entries|
      invariant SplitFrom(ch.entries[i..], Split(exported, errors)) == SplitFrom(ch.entries, Split([], []))
    {
      var e := ch.entries[i];
      assert ch.entries[i..][1..] == ch.entries[i + 1..];
      if e.failed || e.size == 0 {
        errors := errors + [e.item];
      } else {
        if e.item.None? { return Raised(Other), split; }
        exported := exported + [Exported(e.item.value, e.size)];
      }
    }
    return Go, Split(exported, errors);
  }

  class Migrator {
    const c: Settings
    var persisted: Checkpoint
    var sent: seq<Record>
    var imports: seq<Import>
    var cp: Checkpoint
    var progress: int
    var succeeded: int
    var bytes: int
    var buffer: seq<Record>
    var cancelled: bool
    ghost var logged: seq<Record>
    ghost var dropped: seq<Record>

    ghost function St(): State
      reads this
    {
      State(persisted, sent, imports, cp, progress, succeeded, bytes, buffer, cancelled, logged, dropped)
    }

    constructor (c: Settings, persisted: Checkpoint, sent: seq<Record>, imports: seq<Import>)
      ensures this.c == c
      ensures St() == Loaded(State(persisted, sent, imports, persisted, 0, 0, 0, [], false, [], []))
    {
      this.c, this.persisted, this.sent, this.imports := c, persisted, sent, imports;
      cp, progress, succeeded, bytes := persisted, persisted.progress, 0, persisted.bytes;
      buffer, cancelled, logged, dropped := [], false, [], [];
    }

    method LogItem(row: Record)
      modifies this
      ensures St() == Logging(old(St()), [row])
    {
      buffer := buffer + [row];
      logged := logged + [row];
    }

    /** The batch is taken out of the buffer before it is sent, so a failed send loses it. */
    method SendItems(r: Reply) returns (exit: Exit)
      modifies this
      ensures Result(St(), exit) == FlushItems(old(St()), r)
    {
      if buffer == [] { return Go; }
      var batch := buffer;
      buffer := [];
      if TookEffect(r) { sent := sent + batch; } else { dropped := dropped + batch; }
      exit := ControlExit(r);
    }

    method FlushStore(r: Reply) returns (exit: Exit)
      modifies this
      ensures Result(St(), exit) == Flush(old(St()), r)
    {
      if TookEffect(r) { persisted := cp; }
      exit := ControlExit(r);
    }

    method Beat(b: Beat) returns (exit: Exit)
      modifies this
      ensures Result(St(), exit) == Heartbeat(old(St()), b, c.flushSize)
    {
      cp := cp.(progress := progress, bytes := bytes);
      exit := Go;
      if b.flushDue {
        exit := FlushStore(b.flush);
        if exit != Go { return; }
      }
      if |buffer| >= c.flushSize {
        exit := SendItems(b.items);
        if exit != Go { return; }
      }
      if b.cancelSeen { cancelled := true; }
      exit := ControlExit(b.progress);
    }

    method ImportWithRetries(item: Id, dst: Id, attempts: nat -> Attempt) returns (ok: bool, exit: Exit)
      modifies this
      ensures ImportResult(ok, St(), exit) == ImportOne(old(St()), c, item, dst, attempts, 0, false)
    {
      var k: nat, auth := 0, false;
      while k <= c.maxRetries
        invariant St() == old(St())
        invariant ImportOne(St(), c, item, dst, attempts, k, auth) ==
                  ImportOne(old(St()), c, item, dst, attempts, 0, false)
      {
        match attempts(k)
        case Succeeded =>
          imports := imports + [Import(item, dst, c.isDelta)];
          return true, Go;
        case Fatal(st) => return false, Raised(Graph(st));
        case Unexpected => return false, Raised(Other);
        case Dead => return false, Killed;
        case Transient(a) => auth := a; k := k + 1;
      }
      if auth { return false, Raised(Graph(AuthExpired)); }
      LogItem(Record(Some(item), ItemFailed));
      return false, Go;
    }

    method LogErrors(errors: seq<Option<Id>>)
      modifies this
      ensures St() == Logging(old(St()), SkippedRecords(errors))
    {
      for i := 0 to |errors|
        invariant St() == Logging(old(St()), SkippedRecords(errors[..i]))
      {
        assert SkippedRecords(errors[..i + 1]) == SkippedRecords(errors[..i]) + [Record(errors[i], ItemSkipped)];
        LogItem(Record(errors[i], ItemSkipped));
      }
      assert errors[..|errors|] == errors;
    }

    method ImportItems(items: seq<Exported>, dst: Id, script: nat -> nat -> Attempt) returns (exit: Exit)
      modifies this
      ensures Result(St(), exit) == ImportAll(old(St()), c, items, 0, dst, script)
    {
      for j := 0 to |items|
        invariant ImportAll(St(), c, items, j, dst, script) == ImportAll(old(St()), c, items, 0, dst, script)
      {
        var ok;
        ok, exit := ImportWithRetries(items[j].item, dst, script(j));
        if exit != Go { return; }
        if ok {
          progress := progress + 1;
          succeeded := succeeded + 1;
          bytes := bytes + items[j].size * 3 / 4;
        }
      }
      exit := Go;
    }

    method ProcessExportBatch(ids: seq<Id>, dst: Id, ch: ChunkScript) returns (exit: Exit)
      modifies this
      ensures Result(St(), exit) == OneChunk(old(St()), c, ids, dst, ch)
    {
      var split;
      exit, split := ExportItems(ids, ch);
      if exit != Go { return; }
      LogErrors(split.errors);
      exit := ImportItems(split.exported, dst, ch.imports);
    }

    method MigrateFolderItems(folder: Id, entries: seq<Entry>, dst: Id, f: FolderScript) returns (exit: Exit)
      modifies this
      ensures Result(St(), exit) == FolderItems(old(St()), c, folder, entries, dst, f)
    {
      exit := GraphExit(f.enumeration);
      if exit != Go { return; }
      var chunks := Chunks(Added(entries), MAX_EXPORT_BATCH);
      exit := MigrateChunks(chunks, dst, f.chunks);
      if exit != Go { return; }
      if f.deltaLink.Some? {
        cp := cp.(itemDeltas := cp.itemDeltas[folder := f.deltaLink.value]);
      }
    }

    method MigrateChunks(chunks: seq<seq<Id>>, dst: Id, script: nat -> ChunkScript) returns (exit: Exit)
      modifies this
      ensures Result(St(), exit) == CopyChunks(old(St()), c, chunks, 0, dst, script)
    {
      for k := 0 to |chunks|
        invariant CopyChunks(St(), c, chunks, k, dst, script) == CopyChunks(old(St()), c, chunks, 0, dst, script)
      {
        if cancelled || script(k).stop { return Go; }
        exit := ProcessExportBatch(chunks[k], dst, script(k));
        if exit != Go { return; }
        exit := Beat(script(k).beat);
        if exit != Go { return; }
      }
      exit := Go;
    }

    method EnsureDestFolder(folder: Id, f: FolderScript) returns (exit: Exit, dst: Id)
      modifies this
      ensures Ensured(St(), exit, dst) == EnsureFolder(old(St()), folder, f)
    {
      if folder in cp.folderMap { return Go, cp.folderMap[folder]; }
      exit, dst := GraphExit(f.create), f.newId;
      if exit != Go { return; }
      cp := cp.(folderMap := cp.folderMap[folder := dst]);
    }

    method MigrateFolder(folder: Id, entries: seq<Entry>, f: FolderScript) returns (exit: Exit)
      modifies this
      ensures Result(St(), exit) == OneFolder(old(St()), c, folder, entries, f)
    {
      if folder in cp.foldersDone && !c.isDelta { return Go; }
      var dst;
      exit, dst := EnsureDestFolder(folder, f);
      if exit != Go { return; }
      exit := MigrateFolderItems(folder, entries, dst, f);
      if exit != Go { return; }
      if !c.isDelta && folder !in cp.foldersDone {
        cp := cp.(foldersDone := cp.foldersDone + [folder]);
      }
      exit := Beat(f.beat);
    }

    method MigrateMailbox(src: Source, folders: seq<Id>, m: MailboxScript) returns (exit: Exit)
      modifies this
      ensures Result(St(), exit) == OneMailbox(old(St()), c, src, folders, m)
    {
      exit := GraphExit(m.enumeration);
      if exit != Go { return; }
      for i := 0 to |folders|
        invariant CopyFolders(St(), c, src, folders, i, m.folders) ==
                  CopyFolders(old(St()), c, src, folders, 0, m.folders)
      {
        if cancelled || m.folders(i).stop { return Go; }
        exit := MigrateFolder(folders[i], src.entries(folders[i]), m.folders(i));
        if exit != Go { return; }
      }
      exit := Go;
      if m.folderLink.Some? { cp := cp.(folderLink := m.folderLink); }
    }

    method MigrateMailboxes(src: Source, script: nat -> MailboxScript) returns (exit: Exit, stopped: bool)
      modifies this
      ensures LoopResult(St(), exit, stopped) == CopyMailboxes(old(St()), c, src, 0, script)
    {
      for i := 0 to |src.mailboxes|
        invariant CopyMailboxes(St(), c, src, i, script) == CopyMailboxes(old(St()), c, src, 0, script)
      {
        if cancelled || script(i).stop { return Go, true; }
        if src.mailboxes[i].matched {
          exit := MigrateMailbox(src, src.mailboxes[i].folders, script(i));
          if exit != Go { return exit, false; }
        }
      }
      return Go, false;
    }

    /** Returns COMPLETED exactly on exit `Go` and not `stopped`. */
    method RunPass(src: Source, script: Script) returns (exit: Exit, stopped: bool)
      modifies this
      ensures LoopResult(St(), exit, stopped) == Run(old(St()), c, src, script)
    {
      stopped := false;
      exit := ControlExit(script.opening);
      if exit != Go { return; }
      exit := GraphExit(script.resolution);
      if exit != Go { return; }
      exit, stopped := MigrateMailboxes(src, script.mailboxes);
      if exit != Go || stopped { return; }
      exit := SendItems(script.closingItems);
      if exit != Go { return; }
      exit := ControlExit(script.closingProgress);
      if exit != Go { return; }
      exit := FlushStore(script.closingFlush);
    }
  }
}
