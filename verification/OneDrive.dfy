/**
 * The OneDrive migrator: copying a drive, resumably.
 *
 * What survives a crash (the persisted checkpoint, the delivered item records and the destination
 * drive) is kept apart from the memory of one run.  Every reply of the outside world, including
 * the process being killed while a request is in flight, comes from a script, so a run is a
 * function of the state it starts from, the source feed and the script.
 */
module OneDrive {
  import opened Wrappers
  import opened Jobs
  import opened Replies

  type Id = nat

  // ----- the source drive -----

  datatype Kind = RootItem | FolderItem | FileItem | OtherItem

  /** One entry of the delta feed: `path` is the path in its parent reference. */
  datatype Item = Item(id: Id, kind: Kind, parent: Option<Id>, path: string, size: int)

  function Folders(items: seq<Item>): seq<Item> {
    if items == [] then []
    else (if items[0].kind == FolderItem then [items[0]] else []) + Folders(items[1..])
  }

  function Files(items: seq<Item>): seq<Item> {
    if items == [] then []
    else (if items[0].kind == FileItem then [items[0]] else []) + Files(items[1..])
  }

  // ----- checkpoints and state -----

  datatype Checkpoint = Checkpoint(
    folderMap: map<Id, Id>,
    itemsDone: set<Id>,  // a duplicate-free list whose order nothing depends on
    deltaLink: Option<string>,
    progress: int,
    bytes: int)

  const EMPTY := Checkpoint(map[], {}, None, 0, 0)

  datatype Upload = Upload(file: Id, dstParent: Id)

  datatype State = State(
    // survives a crash
    persisted: Checkpoint,
    sent: seq<Id>,             // FAILED item records delivered
    uploads: seq<Upload>,      // successful file copies, oldest first
    dest: map<Id, Id>,         // destination folder -> its parent
    // memory of the run
    cp: Checkpoint,            // store.checkpoint; its itemsDone is stale until the run ends
    done: set<Id>,             // items_done
    progress: int,
    bytes: int,
    buffer: seq<Id>,           // unsent FAILED item records
    cancelled: bool)

  // ----- what a run meets -----

  datatype FolderScript = FolderScript(stop: bool, newId: Id, reply: Reply)
  datatype FileScript = FileScript(stop: bool, attempts: nat -> Attempt, beat: Beat)

  datatype Script = Script(
    opening: Reply,                  // first progress report
    resolution: Reply,               // of both drives
    enumeration: Reply,
    deltaLink: Option<string>,
    folders: nat -> FolderScript,    // by position in the sorted folder list
    files: nat -> FileScript,        // by position in the file list
    closingItems: Reply,
    closingProgress: Reply,
    closingFlush: Reply,
    workerItems: Reply,              // the worker's own flushes, after the migrator
    workerFlush: Reply)

  datatype Settings = Settings(srcRoot: Id, dstRoot: Id, maxRetries: int, flushSize: nat)

  datatype Result = Result(s: State, exit: Exit)

  // ----- the steps of a run -----

  function FlushItems(s: State, r: Reply): Result {
    if s.buffer == [] then Result(s, Go)
    else Result(s.(buffer := [], sent := if TookEffect(r) then s.sent + s.buffer else s.sent), ControlExit(r))
  }

  function Flush(s: State, r: Reply): Result {
    Result(if TookEffect(r) then s.(persisted := s.cp) else s, ControlExit(r))
  }

  function Updated(s: State): State {
    s.(cp := s.cp.(progress := s.progress, bytes := s.bytes))
  }

  function Heartbeat(s: State, b: Beat, flushSize: nat): Result {
    var r0 := if b.flushDue then Flush(Updated(s), b.flush) else Result(Updated(s), Go);
    if r0.exit != Go then r0
    else
      var r1 := if |r0.s.buffer| >= flushSize then FlushItems(r0.s, b.items) else r0;
      if r1.exit != Go then r1
      else Result(r1.s.(cancelled := r1.s.cancelled || b.cancelSeen), ControlExit(b.progress))
  }

  function DstParent(s: State, c: Settings, item: Item): Id {
    if item.parent.Some? && item.parent.value in s.cp.folderMap
    then s.cp.folderMap[item.parent.value]
    else c.dstRoot
  }

  /** The folder exists under `parent` afterwards if the request took effect; it is mapped only on success. */
  function EnsureFolder(s: State, c: Settings, folder: Item, f: FolderScript): Result {
    if folder.id in s.cp.folderMap then Result(s, Go)
    else
      var t := if TookEffect(f.reply) then s.(dest := s.dest[f.newId := DstParent(s, c, folder)]) else s;
      var u := if f.reply.Ok? then t.(cp := t.cp.(folderMap := t.cp.folderMap[folder.id := f.newId])) else t;
      Result(u, GraphExit(f.reply))
  }

  datatype CopyResult = CopyResult(ok: bool, s: State, exit: Exit)

  /** Tries numbered from `k`; `auth` says whether the last failure was a rejected token. */
  function Copy(s: State, c: Settings, file: Item, attempts: nat -> Attempt, k: nat, auth: bool): CopyResult
    decreases c.maxRetries + 1 - k
  {
    if k <= c.maxRetries then
      match attempts(k)
      case Succeeded => CopyResult(true, s.(uploads := s.uploads + [Upload(file.id, DstParent(s, c, file))]), Go)
      case Fatal(st) => CopyResult(false, s, Raised(Graph(st)))
      case Unexpected => CopyResult(false, s, Raised(Other))
      case Dead => CopyResult(false, s, Killed)
      case Transient(a) => Copy(s, c, file, attempts, k + 1, a)
    else if auth then CopyResult(false, s, Raised(Graph(AuthExpired)))
    else CopyResult(false, s.(buffer := s.buffer + [file.id]), Go)
  }

  function Credited(s: State, file: Item): State {
    s.(done := s.done + {file.id}, progress := s.progress + 1, bytes := s.bytes + file.size)
  }

  function OneFile(s: State, c: Settings, file: Item, f: FileScript): Result {
    if file.id in s.done then Result(s, Go)
    else
      var r := Copy(s, c, file, f.attempts, 0, false);
      if r.exit != Go then Result(r.s, r.exit)
      else Heartbeat(if r.ok then Credited(r.s, file) else r.s, f.beat, c.flushSize)
  }

  /** The file loop from position `i`. */
  function CopyFiles(s: State, c: Settings, files: seq<Item>, i: nat, script: Script): Result
    requires i <= |files|
    decreases |files| - i
  {
    if i == |files| || s.cancelled || script.files(i).stop then Result(s, Go)
    else
      var r := OneFile(s, c, files[i], script.files(i));
      if r.exit != Go then r else CopyFiles(r.s, c, files, i + 1, script)
  }

  // ----- folders, shallow first -----

  function CountSlashes(s: string): nat {
    if s == "" then 0 else (if s[0] == '/' then 1 else 0) + CountSlashes(s[1..])
  }

  /** What follows the first `root:`, or everything. */
  function Tail(path: string): string {
    if |path| < 5 then path
    else if path[..5] == "root:" then path[5..]
    else if HasRoot(path[1..]) then Tail(path[1..])
    else path
  }

  predicate HasRoot(path: string) {
    |path| >= 5 && (path[..5] == "root:" || HasRoot(path[1..]))
  }

  function Depth(path: string): nat {
    CountSlashes(Tail(path))
  }

  function Inserted(x: Item, sorted: seq<Item>): seq<Item> {
    if sorted == [] || Depth(x.path) <= Depth(sorted[0].path) then [x] + sorted
    else [sorted[0]] + Inserted(x, sorted[1..])
  }

  /** The stable sort of the folder list. */
  function ByDepth(folders: seq<Item>): seq<Item> {
    if folders == [] then [] else Inserted(folders[0], ByDepth(folders[1..]))
  }

  datatype FolderResult = FolderResult(s: State, exit: Exit, stopped: bool)

  function CopyFolders(s: State, c: Settings, folders: seq<Item>, i: nat, script: Script): FolderResult
    requires i <= |folders|
    decreases |folders| - i
  {
    if i == |folders| then FolderResult(s, Go, false)
    else if s.cancelled || script.folders(i).stop then FolderResult(s, Go, true)
    else
      var r := EnsureFolder(s, c, folders[i], script.folders(i));
      if r.exit != Go then FolderResult(r.s, r.exit, false) else CopyFolders(r.s, c, folders, i + 1, script)
  }

  /** Stopping early is not told apart from finishing. */
  function ApplyFeed(s: State, c: Settings, feed: seq<Item>, script: Script): Result {
    var r := CopyFolders(s, c, ByDepth(Folders(feed)), 0, script);
    if r.exit != Go || r.stopped then Result(r.s, r.exit)
    else CopyFiles(r.s, c, Files(feed), 0, script)
  }

  // ----- a whole run -----

  /** A new context over the persisted checkpoint. */
  function Loaded(s: State): State {
    s.(cp := s.persisted, done := s.persisted.itemsDone, progress := s.persisted.progress,
       bytes := s.persisted.bytes, buffer := [], cancelled := false)
  }

  function Rooted(s: State, c: Settings): State {
    if c.srcRoot in s.cp.folderMap then s
    else s.(cp := s.cp.(folderMap := s.cp.folderMap[c.srcRoot := c.dstRoot]))
  }

  /** The part under `try ... finally`: a kill skips the write-back, an exception does not. */
  function Body(s: State, c: Settings, feed: seq<Item>, script: Script): Result {
    var r :=
      if script.enumeration.Ok? then ApplyFeed(s, c, feed, script)
      else Result(s, GraphExit(script.enumeration));
    if r.exit == Killed then r
    else
      var t := r.s.(cp := r.s.cp.(itemsDone := r.s.done));
      Result(if r.exit == Go && script.deltaLink.Some? then t.(cp := t.cp.(deltaLink := script.deltaLink)) else t,
             r.exit)
  }

  function Closing(s: State, script: Script): Result {
    var r := FlushItems(s, script.closingItems);
    if r.exit != Go then r
    else if ControlExit(script.closingProgress) != Go then Result(r.s, ControlExit(script.closingProgress))
    else Flush(r.s, script.closingFlush)
  }

  /** `OneDriveMigrator.run`; exit `Go` is the return of COMPLETED. */
  function Run(s: State, c: Settings, feed: seq<Item>, script: Script): Result {
    if script.opening != Ok then Result(s, ControlExit(script.opening))
    else if script.resolution != Ok then Result(s, GraphExit(script.resolution))
    else
      var r := Body(Rooted(s, c), c, feed, script);
      if r.exit != Go then r else Closing(r.s, script)
  }

  /** The flushes `_handle` makes after the migrator returned or raised. */
  function Epilogue(r: Result, script: Script): Result {
    if r.exit == Go then Flush(r.s, script.workerFlush)
    else if r.exit.Raised? && r.exit.exn.Graph? then
      var q := FlushItems(r.s, script.workerItems);
      if q.exit != Go then Result(q.s, if q.exit == Killed then Killed else r.exit)
      else
        var w := Flush(q.s, script.workerFlush);
        Result(w.s, if w.exit == Killed then Killed else r.exit)
    else r
  }

  /** One handling of a dispatch message, from the persisted checkpoint on. */
  function Handled(s: State, c: Settings, feed: seq<Item>, script: Script): Result {
    Epilogue(Run(Loaded(s), c, feed, script), script)
  }

  // ----- the migrator itself -----

  class Migrator {
    const c: Settings
    var persisted: Checkpoint
    var sent: seq<Id>
    var uploads: seq<Upload>
    var dest: map<Id, Id>
    var cp: Checkpoint
    var done: set<Id>
    var progress: int
    var bytes: int
    var buffer: seq<Id>
    var cancelled: bool

    function St(): State
      reads this
    {
      State(persisted, sent, uploads, dest, cp, done, progress, bytes, buffer, cancelled)
    }

    /** `JobContext(...)` and `set(cursor["items_done"])` over what survived. */
    constructor (c: Settings, persisted: Checkpoint, sent: seq<Id>, uploads: seq<Upload>, dest: map<Id, Id>)
      ensures this.c == c
      ensures St() == Loaded(State(persisted, sent, uploads, dest, persisted, {}, 0, 0, [], false))
    {
      this.c, this.persisted, this.sent, this.uploads, this.dest := c, persisted, sent, uploads, dest;
      cp, done, progress, bytes := persisted, persisted.itemsDone, persisted.progress, persisted.bytes;
      buffer, cancelled := [], false;
    }

    /** The batch is taken out of the buffer before it is sent, so a failed send loses it. */
    method SendItems(r: Reply) returns (exit: Exit)
      modifies this
      ensures Result(St(), exit) == FlushItems(old(St()), r)
    {
      if buffer == [] { return Go; }
      var batch := buffer;
      buffer := [];
      if TookEffect(r) { sent := sent + batch; }
      exit := ControlExit(r);
    }

    method FlushStore(r: Reply) returns (exit: Exit)
      modifies this
      ensures Result(St(), exit) == Flush(old(St()), r)
    {
      if TookEffect(r) { persisted := cp; }
      exit := ControlExit(r);
    }

    method Beat(b: Beat) returns (exit: Exit)
      modifies this
      ensures Result(St(), exit) == Heartbeat(old(St()), b, c.flushSize)
    {
      cp := cp.(progress := progress, bytes := bytes);
      exit := Go;
      if b.flushDue {
        exit := FlushStore(b.flush);
        if exit != Go { return; }
      }
      if |buffer| >= c.flushSize {
        exit := SendItems(b.items);
        if exit != Go { return; }
      }
      if b.cancelSeen { cancelled := true; }
      exit := ControlExit(b.progress);
    }

    method EnsureDestFolder(folder: Item, f: FolderScript) returns (exit: Exit)
      modifies this
      ensures Result(St(), exit) == EnsureFolder(old(St()), c, folder, f)
    {
      if folder.id in cp.folderMap { return Go; }
      var dstParent := DstParent(St(), c, folder);
      if TookEffect(f.reply) { dest := dest[f.newId := dstParent]; }
      if f.reply.Ok? { cp := cp.(folderMap := cp.folderMap[folder.id := f.newId]); }
      exit := GraphExit(f.reply);
    }

    method CopyFileWithRetries(file: Item, attempts: nat -> Attempt) returns (ok: bool, exit: Exit)
      modifies this
      ensures CopyResult(ok, St(), exit) == Copy(old(St()), c, file, attempts, 0, false)
    {
      var k: nat, auth := 0, false;
      while k <= c.maxRetries
        invariant St() == old(St())
        invariant Copy(St(), c, file, attempts, k, auth) == Copy(old(St()), c, file, attempts, 0, false)
      {
        match attempts(k)
        case Succeeded =>
          uploads := uploads + [Upload(file.id, DstParent(St(), c, file))];
          return true, Go;
        case Fatal(st) => return false, Raised(Graph(st));
        case Unexpected => return false, Raised(Other);
        case Dead => return false, Killed;
        case Transient(a) => auth := a; k := k + 1;
      }
      if auth { return false, Raised(Graph(AuthExpired)); }
      buffer := buffer + [file.id];
      return false, Go;
    }

    method ApplyFolders(folders: seq<Item>, script: Script) returns (exit: Exit, stopped: bool)
      modifies this
      ensures FolderResult(St(), exit, stopped) == CopyFolders(old(St()), c, folders, 0, script)
    {
      for i := 0 to |folders|
        invariant CopyFolders(St(), c, folders, i, script) == CopyFolders(old(St()), c, folders, 0, script)
      {
        if cancelled || script.folders(i).stop { return Go, true; }
        exit := EnsureDestFolder(folders[i], script.folders(i));
        if exit != Go { return exit, false; }
      }
      return Go, false;
    }

    method Credit(file: Item)
      modifies this`done, this`progress, this`bytes
      ensures St() == Credited(old(St()), file)
    {
      done := done + {file.id};
      progress := progress + 1;
      bytes := bytes + file.size;
    }

    method ApplyFile(file: Item, f: FileScript) returns (exit: Exit)
      modifies this
      ensures Result(St(), exit) == OneFile(old(St()), c, file, f)
    {
      if file.id in done { return Go; }  // copied on a prior, interrupted run
      var ok;
      ok, exit := CopyFileWithRetries(file, f.attempts);
      if exit != Go { return; }
      if ok { Credit(file); }
      exit := Beat(f.beat);
    }

    method ApplyFiles(files: seq<Item>, script: Script) returns (exit: Exit)
      modifies this
      ensures Result(St(), exit) == CopyFiles(old(St()), c, files, 0, script)
    {
      for i := 0 to |files|
        invariant CopyFiles(St(), c, files, i, script) == CopyFiles(old(St()), c, files, 0, script)
      {
        if cancelled || script.files(i).stop { return Go; }
        exit := ApplyFile(files[i], script.files(i));
        if exit != Go { return; }
      }
      exit := Go;
    }

    method ApplyEnumeration(feed: seq<Item>, script: Script) returns (exit: Exit)
      modifies this
      ensures Result(St(), exit) == ApplyFeed(old(St()), c, feed, script)
    {
      var stopped;
      exit, stopped := ApplyFolders(ByDepth(Folders(feed)), script);
      if exit != Go || stopped { return; }
      exit := ApplyFiles(Files(feed), script);
    }

    /** Returns COMPLETED exactly on exit `Go`. */
    method RunPass(feed: seq<Item>, script: Script) returns (exit: Exit)
      modifies this
      ensures Result(St(), exit) == Run(old(St()), c, feed, script)
    {
      exit := ControlExit(script.opening);
      if exit != Go { return; }
      exit := GraphExit(script.resolution);
      if exit != Go { return; }
      if c.srcRoot !in cp.folderMap {
        cp := cp.(folderMap := cp.folderMap[c.srcRoot := c.dstRoot]);
      }
      if script.enumeration.Ok? {
        exit := ApplyEnumeration(feed, script);
      } else {
        exit := GraphExit(script.enumeration);
      }
      if exit == Killed { return; }
      cp := cp.(itemsDone := done);
      if exit != Go { return; }
      if script.deltaLink.Some? { cp := cp.(deltaLink := script.deltaLink); }

      exit := SendItems(script.closingItems);
      if exit != Go { return; }
      exit := ControlExit(script.closingProgress);
      if exit != Go { return; }
      exit := FlushStore(script.closingFlush);
    }
  }
}
