/**
 * What the OneDrive migrator guarantees over chains of runs: nothing enumerated is forgotten, the
 * counters stay consistent, and nothing is copied twice between clean runs.
 */
module OneDriveProofs {
  import opened Wrappers
  import opened Replies
  import opened OneDrive

  // ----- chains of runs -----

  /** The handlings of one job's messages since its row was created, oldest first inside. */
  datatype Chain = Fresh | Then(prev: Chain, feed: seq<Item>, script: Script)

  /** Before the first run nothing is persisted, delivered or copied. */
  const BLANK := State(EMPTY, [], [], map[], EMPTY, {}, 0, 0, [], false)

  function After(ch: Chain, c: Settings): State {
    if ch.Fresh? then BLANK else Handled(After(ch.prev, c), c, ch.feed, ch.script).s
  }

  function CopiedIds(s: State): set<Id> {
    set u | u in s.uploads :: u.file
  }

  // ----- the resume invariant -----

  /** Persisted `items_done` only names copied files, and is never larger than the persisted counter. */
  predicate Durable(s: State) {
    s.persisted.itemsDone <= CopiedIds(s) && |s.persisted.itemsDone| <= s.persisted.progress
  }

  predicate Live(s: State) {
    && Durable(s)
    && s.cp.itemsDone <= s.done <= CopiedIds(s)
    && |s.done| <= s.progress
  }

  /** At every await the checkpoint in memory carries the current counter. */
  predicate Synced(s: State) {
    s.cp.progress == s.progress
  }

  lemma UploadGrows(s: State, u: Upload, t: State)
    requires t.uploads == s.uploads + [u]
    ensures CopiedIds(t) == CopiedIds(s) + {u.file}
  {
    assert u in t.uploads;
    assert forall v :: v in t.uploads <==> v in s.uploads || v == u;
  }

  /** What a step of the file loop may do to the parts a crash does not spare. */
  lemma {:induction false} CopyEffect(s: State, c: Settings, file: Item, attempts: nat -> Attempt, k: nat, auth: bool)
    ensures
      var r := Copy(s, c, file, attempts, k, auth);
      && (r.ok ==> r.exit == Go && r.s == s.(uploads := s.uploads + [Upload(file.id, DstParent(s, c, file))]))
      && (!r.ok && r.exit == Go ==> r.s == s.(buffer := s.buffer + [file.id]))
      && (r.exit != Go ==> r.s == s)
      && r.exit != Raised(Throttled)
    decreases c.maxRetries + 1 - k
  {
    if k <= c.maxRetries && attempts(k).Transient? {
      CopyEffect(s, c, file, attempts, k + 1, attempts(k).auth);
    }
  }

  lemma SubsetCard(a: set<Id>, b: set<Id>)
    requires a <= b
    ensures |a| <= |b|
  {
    assert b == a + (b - a);
  }

  /** What a heartbeat leaves alone, and what it may have persisted. */
  lemma HeartbeatFrame(s: State, b: Beat, flushSize: nat)
    ensures
      var t := Heartbeat(s, b, flushSize).s;
      && t.uploads == s.uploads && t.done == s.done && t.progress == s.progress
      && t.cp == s.cp.(progress := s.progress, bytes := s.bytes)
      && (t.persisted == s.persisted || t.persisted == t.cp)
  {
  }

  lemma HeartbeatLive(s: State, b: Beat, flushSize: nat)
    requires Live(s)
    ensures Live(Heartbeat(s, b, flushSize).s) && Synced(Heartbeat(s, b, flushSize).s)
  {
    SubsetCard(s.cp.itemsDone, s.done);
    HeartbeatFrame(s, b, flushSize);
    LiveOn(s, Heartbeat(s, b, flushSize).s);
  }

  lemma LiveOn(s: State, t: State)
    requires Live(s) && t.uploads == s.uploads && t.done == s.done && t.progress == s.progress
    requires t.cp.itemsDone == s.cp.itemsDone && t.cp.progress == s.progress
    requires t.persisted == s.persisted || t.persisted == t.cp
    ensures Live(t)
  {
    assert CopiedIds(t) == CopiedIds(s);
    SubsetCard(s.cp.itemsDone, s.done);
  }

  lemma OneFileLive(s: State, c: Settings, file: Item, f: FileScript)
    requires Live(s) && Synced(s)
    ensures Live(OneFile(s, c, file, f).s) && Synced(OneFile(s, c, file, f).s)
  {
    CopyEffect(s, c, file, f.attempts, 0, false);
    var r := Copy(s, c, file, f.attempts, 0, false);
    if file.id !in s.done && r.exit == Go {
      var t := if r.ok then Credited(r.s, file) else r.s;
      if r.ok {
        UploadGrows(s, Upload(file.id, DstParent(s, c, file)), r.s);
      }
      assert CopiedIds(t) == CopiedIds(r.s);
      HeartbeatLive(t, f.beat, c.flushSize);
    }
  }

  lemma {:induction false} CopyFilesLive(s: State, c: Settings, files: seq<Item>, i: nat, script: Script)
    requires Live(s) && Synced(s) && i <= |files|
    ensures Live(CopyFiles(s, c, files, i, script).s) && Synced(CopyFiles(s, c, files, i, script).s)
    decreases |files| - i
  {
    if i < |files| && !s.cancelled && !script.files(i).stop {
      OneFileLive(s, c, files[i], script.files(i));
      if OneFile(s, c, files[i], script.files(i)).exit == Go {
        CopyFilesLive(OneFile(s, c, files[i], script.files(i)).s, c, files, i + 1, script);
      }
    }
  }

  /** The folder loop only touches the folder map and the destination. */
  lemma {:induction false} CopyFoldersFrame(s: State, c: Settings, folders: seq<Item>, i: nat, script: Script)
    requires i <= |folders|
    ensures
      var t := CopyFolders(s, c, folders, i, script).s;
      t == s.(dest := t.dest, cp := s.cp.(folderMap := t.cp.folderMap))
    decreases |folders| - i
  {
    if i < |folders| && !s.cancelled && !script.folders(i).stop {
      var r := EnsureFolder(s, c, folders[i], script.folders(i));
      if r.exit == Go {
        CopyFoldersFrame(r.s, c, folders, i + 1, script);
      }
    }
  }

  lemma ApplyFeedLive(s: State, c: Settings, feed: seq<Item>, script: Script)
    requires Live(s) && Synced(s)
    ensures Live(ApplyFeed(s, c, feed, script).s) && Synced(ApplyFeed(s, c, feed, script).s)
  {
    CopyFoldersFrame(s, c, ByDepth(Folders(feed)), 0, script);
    var q := CopyFolders(s, c, ByDepth(Folders(feed)), 0, script);
    assert CopiedIds(q.s) == CopiedIds(s);
    if q.exit == Go && !q.stopped {
      CopyFilesLive(q.s, c, Files(feed), 0, script);
    }
  }

  lemma FlushLive(s: State, r: Reply)
    requires Live(s) && Synced(s)
    ensures Live(Flush(s, r).s) && Synced(Flush(s, r).s)
    ensures Live(FlushItems(s, r).s) && Synced(FlushItems(s, r).s)
  {
    SubsetCard(s.cp.itemsDone, s.done);
  }

  lemma BodyLive(s: State, c: Settings, feed: seq<Item>, script: Script)
    requires Live(s) && Synced(s)
    ensures Live(Body(s, c, feed, script).s) && Synced(Body(s, c, feed, script).s)
  {
    ApplyFeedLive(s, c, feed, script);
    var q := if script.enumeration.Ok? then ApplyFeed(s, c, feed, script).s else s;
    assert CopiedIds(Body(s, c, feed, script).s) == CopiedIds(q);
  }

  lemma RunLive(s: State, c: Settings, feed: seq<Item>, script: Script)
    requires Live(s) && Synced(s)
    ensures Live(Run(s, c, feed, script).s) && Synced(Run(s, c, feed, script).s)
  {
    var q := Rooted(s, c);
    assert CopiedIds(q) == CopiedIds(s);
    BodyLive(q, c, feed, script);
    var b := Body(q, c, feed, script);
    FlushLive(b.s, script.closingItems);
    FlushLive(FlushItems(b.s, script.closingItems).s, script.closingFlush);
  }

  lemma HandledDurable(s: State, c: Settings, feed: seq<Item>, script: Script)
    requires Durable(s)
    ensures Live(Handled(s, c, feed, script).s)
  {
    assert CopiedIds(Loaded(s)) == CopiedIds(s);
    RunLive(Loaded(s), c, feed, script);
    var r := Run(Loaded(s), c, feed, script);
    FlushLive(r.s, script.workerFlush);
    FlushLive(r.s, script.workerItems);
    FlushLive(FlushItems(r.s, script.workerItems).s, script.workerFlush);
  }

  /**
   * In every chain of runs, however each of them ended, the persisted `items_done` names only files
   * that some run really copied, and `progress_current` is at least its size.
   */
  lemma {:induction false} ChainDurable(ch: Chain, c: Settings)
    ensures Durable(After(ch, c))
  {
    if ch.Then? {
      ChainDurable(ch.prev, c);
      HandledDurable(After(ch.prev, c), c, ch.feed, ch.script);
    }
  }

  // ----- completeness -----

  function SeqIds(ids: seq<Id>): set<Id> {
    set x | x in ids
  }

  function ItemIds(items: seq<Item>): set<Id> {
    set f | f in items :: f.id
  }

  /** Copied by a successful `_copy_file`, or recorded as FAILED with the control plane. */
  function Accounted(s: State): set<Id> {
    CopiedIds(s) + SeqIds(s.sent)
  }

  /** Accounted for, or about to be: the record is still in the buffer. */
  function Noted(s: State): set<Id> {
    Accounted(s) + SeqIds(s.buffer)
  }

  /** The position at which the file loop ends: the first one where `should_stop` answers true. */
  function Reached(s: State, c: Settings, files: seq<Item>, i: nat, script: Script): (n: nat)
    requires i <= |files|
    ensures i <= n <= |files|
    decreases |files| - i
  {
    if i == |files| || s.cancelled || script.files(i).stop then i
    else
      var r := OneFile(s, c, files[i], script.files(i));
      if r.exit != Go then i else Reached(r.s, c, files, i + 1, script)
  }

  lemma HeartbeatNotes(s: State, b: Beat, flushSize: nat)
    requires Heartbeat(s, b, flushSize).exit == Go
    ensures Noted(Heartbeat(s, b, flushSize).s) == Noted(s)
  {
  }

  lemma OneFileNotes(s: State, c: Settings, file: Item, f: FileScript)
    requires s.done <= CopiedIds(s) && OneFile(s, c, file, f).exit == Go
    ensures Noted(OneFile(s, c, file, f).s) == Noted(s) + {file.id}
  {
    CopyEffect(s, c, file, f.attempts, 0, false);
    var r := Copy(s, c, file, f.attempts, 0, false);
    if file.id !in s.done {
      if r.ok {
        UploadGrows(s, Upload(file.id, DstParent(s, c, file)), r.s);
        assert Noted(Credited(r.s, file)) == Noted(s) + {file.id};
        HeartbeatNotes(Credited(r.s, file), f.beat, c.flushSize);
      } else {
        assert CopiedIds(r.s) == CopiedIds(s);
        assert Noted(r.s) == Noted(s) + {file.id};
        HeartbeatNotes(r.s, f.beat, c.flushSize);
      }
    }
  }

  lemma {:induction false} CopyFilesNotes(s: State, c: Settings, files: seq<Item>, i: nat, script: Script)
    requires Live(s) && Synced(s) && i <= |files| && CopyFiles(s, c, files, i, script).exit == Go
    ensures
      var n := Reached(s, c, files, i, script);
      Noted(CopyFiles(s, c, files, i, script).s) == Noted(s) + ItemIds(files[i..n])
    decreases |files| - i
  {
    if i == |files| || s.cancelled || script.files(i).stop {
      assert files[i..i] == [];
    } else {
      var r := OneFile(s, c, files[i], script.files(i));
      OneFileNotes(s, c, files[i], script.files(i));
      OneFileLive(s, c, files[i], script.files(i));
      CopyFilesNotes(r.s, c, files, i + 1, script);
      FirstId(files, i, Reached(r.s, c, files, i + 1, script));
    }
  }

  lemma FirstId(files: seq<Item>, i: nat, n: nat)
    requires i < n <= |files|
    ensures ItemIds(files[i..n]) == {files[i].id} + ItemIds(files[i + 1..n])
  {
    assert files[i..n] == [files[i]] + files[i + 1..n];
  }

  /** How many files the run looked at before it finished or stopped. */
  function ReachedIn(s: State, c: Settings, feed: seq<Item>, script: Script): (n: nat)
    ensures n <= |Files(feed)|
  {
    var q := CopyFolders(s, c, ByDepth(Folders(feed)), 0, script);
    if q.exit != Go || q.stopped then 0 else Reached(q.s, c, Files(feed), 0, script)
  }

  lemma BodyNotes(s: State, c: Settings, feed: seq<Item>, script: Script)
    requires Live(s) && Synced(s) && Body(s, c, feed, script).exit == Go
    ensures Noted(Body(s, c, feed, script).s) == Noted(s) + ItemIds(Files(feed)[..ReachedIn(s, c, feed, script)])
  {
    CopyFoldersFrame(s, c, ByDepth(Folders(feed)), 0, script);
    var q := CopyFolders(s, c, ByDepth(Folders(feed)), 0, script);
    assert CopiedIds(q.s) == CopiedIds(s);
    assert Noted(q.s) == Noted(s);
    if !q.stopped {
      CopyFilesNotes(q.s, c, Files(feed), 0, script);
    }
    assert Noted(Body(s, c, feed, script).s) == Noted(ApplyFeed(s, c, feed, script).s);
  }

  lemma ClosingSends(s: State, script: Script)
    requires Closing(s, script).exit == Go
    ensures Accounted(Closing(s, script).s) == Noted(s)
  {
  }

  /** What the worker does after the migrator has returned delivers no more and copies no more. */
  lemma EpilogueAccounts(r: Result, script: Script)
    requires r.exit == Go
    ensures Accounted(Epilogue(r, script).s) == Accounted(r.s)
  {
  }

  /**
   * A run that returns COMPLETED accounts for exactly the files it reached before the first
   * `should_stop`, on top of what was accounted for before it.
   */
  lemma CompletedAccountsExactly(s: State, c: Settings, feed: seq<Item>, script: Script)
    requires Durable(s) && Run(Loaded(s), c, feed, script).exit == Go
    ensures
      Accounted(Handled(s, c, feed, script).s) ==
      Accounted(s) + ItemIds(Files(feed)[..ReachedIn(Rooted(Loaded(s), c), c, feed, script)])
  {
    var q := Rooted(Loaded(s), c);
    assert CopiedIds(q) == CopiedIds(s);
    assert Noted(q) == Accounted(s);
    BodyNotes(q, c, feed, script);
    ClosingSends(Body(q, c, feed, script).s, script);
    EpilogueAccounts(Run(Loaded(s), c, feed, script), script);
  }

  /** No graceful stop and no cancellation is seen. */
  ghost predicate Unstopped(script: Script) {
    (forall i: nat :: !script.folders(i).stop) &&
    (forall i: nat :: !script.files(i).stop && !script.files(i).beat.cancelSeen)
  }

  lemma {:induction false} UnstoppedFolders(s: State, c: Settings, folders: seq<Item>, i: nat, script: Script)
    requires Unstopped(script) && !s.cancelled && i <= |folders|
    ensures !CopyFolders(s, c, folders, i, script).stopped
    decreases |folders| - i
  {
    if i < |folders| {
      var r := EnsureFolder(s, c, folders[i], script.folders(i));
      if r.exit == Go {
        UnstoppedFolders(r.s, c, folders, i + 1, script);
      }
    }
  }

  lemma {:induction false} UnstoppedReaches(s: State, c: Settings, files: seq<Item>, i: nat, script: Script)
    requires Unstopped(script) && !s.cancelled && i <= |files|
    requires CopyFiles(s, c, files, i, script).exit == Go
    ensures Reached(s, c, files, i, script) == |files|
    decreases |files| - i
  {
    if i < |files| {
      CopyEffect(s, c, files[i], script.files(i).attempts, 0, false);
      UnstoppedReaches(OneFile(s, c, files[i], script.files(i)).s, c, files, i + 1, script);
    }
  }

  lemma UnstoppedReachesAll(s: State, c: Settings, feed: seq<Item>, script: Script)
    requires Unstopped(script) && !s.cancelled && Body(s, c, feed, script).exit == Go
    ensures ReachedIn(s, c, feed, script) == |Files(feed)|
  {
    var folders := ByDepth(Folders(feed));
    UnstoppedFolders(s, c, folders, 0, script);
    CopyFoldersFrame(s, c, folders, 0, script);
    UnstoppedReaches(CopyFolders(s, c, folders, 0, script).s, c, Files(feed), 0, script);
  }

  /**
   * After any chain of runs, however they were cut short, an unstopped run that returns COMPLETED
   * leaves every enumerated file copied or recorded as FAILED.
   */
  lemma ResumeCompleteness(ch: Chain, c: Settings, feed: seq<Item>, script: Script, file: Item)
    requires Unstopped(script) && Run(Loaded(After(ch, c)), c, feed, script).exit == Go
    requires file in Files(feed)
    ensures file.id in Accounted(After(Then(ch, feed, script), c))
  {
    var s := After(ch, c);
    ChainDurable(ch, c);
    CompletedAccountsExactly(s, c, feed, script);
    UnstoppedReachesAll(Rooted(Loaded(s), c), c, feed, script);
    assert Files(feed)[..|Files(feed)|] == Files(feed);
    assert file.id in ItemIds(Files(feed));
  }

  // ----- what a stop, and an unflushed failure, do -----

  const CALM := Beat(false, Ok, Ok, false, Ok)

  /** Everything succeeds; `stop` answers the first `should_stop`, `beat` is every heartbeat. */
  function SimpleScript(stop: bool, beat: Beat): Script {
    Script(Ok, Ok, Ok, None, (i: nat) => FolderScript(false, 0, Ok),
           (i: nat) => FileScript(stop, (k: nat) => Succeeded, beat), Ok, Ok, Ok, Ok, Ok)
  }

  const ONE_FILE := [Item(5, FileItem, None, "/drive/root:", 10)]
  const SETTINGS := Settings(1, 2, 5, 20)

  /** A graceful stop before the first file still returns COMPLETED, with the file neither copied nor recorded. */
  lemma StoppedRunForgets()
    ensures
      var r := Handled(BLANK, SETTINGS, ONE_FILE, SimpleScript(true, CALM));
      r.exit == Go && ONE_FILE[0] in Files(ONE_FILE) && 5 !in Accounted(r.s)
  {
    assert Files(ONE_FILE) == ONE_FILE;
  }

  // ----- clean chains: exact counters, nothing copied twice -----

  predicate NoFileTwice(uploads: seq<Upload>) {
    forall i, j | 0 <= i < j < |uploads| :: uploads[i].file != uploads[j].file
  }

  /** The persisted checkpoint names exactly the copied files and counts them. */
  predicate Exact(s: State) {
    && s.persisted.itemsDone == CopiedIds(s)
    && s.persisted.progress == |CopiedIds(s)|
    && NoFileTwice(s.uploads)
  }

  /** The same of the memory of a run. */
  predicate Tight(s: State) {
    && s.done == CopiedIds(s)
    && s.progress == s.cp.progress == |s.done|
    && NoFileTwice(s.uploads)
  }

  /** After the write-back of items_done at the end of the body, some flush of the checkpoint took effect. */
  predicate FlushedAfter(s: State, c: Settings, feed: seq<Item>, script: Script) {
    var b := Body(Rooted(Loaded(s), c), c, feed, script);
    && script.opening == Ok && script.resolution == Ok
    && if b.exit == Go then ClosingReaches(b.s, script) && TookEffect(script.closingFlush)
       else if b.exit.Raised? && b.exit.exn.Graph?
       then FlushItems(b.s, script.workerItems).exit == Go && TookEffect(script.workerFlush)
       else false
  }

  /** The closing flush is reached. */
  predicate ClosingReaches(s: State, script: Script) {
    FlushItems(s, script.closingItems).exit == Go && script.closingProgress == Ok
  }

  /** Nothing was copied, or what was copied is in a persisted list. */
  predicate CleanEnd(s: State, c: Settings, feed: seq<Item>, script: Script) {
    Handled(s, c, feed, script).s.uploads == s.uploads || FlushedAfter(s, c, feed, script)
  }

  predicate CleanChain(ch: Chain, c: Settings) {
    ch.Fresh? || (CleanChain(ch.prev, c) && CleanEnd(After(ch.prev, c), c, ch.feed, ch.script))
  }

  /** The checkpoint was exact after every handling. */
  predicate ExactThroughout(ch: Chain, c: Settings) {
    ch.Fresh? || (ExactThroughout(ch.prev, c) && Exact(After(ch, c)))
  }

  lemma HeartbeatTight(s: State, b: Beat, flushSize: nat)
    requires s.done == CopiedIds(s) && s.progress == |s.done| && NoFileTwice(s.uploads)
    ensures Tight(Heartbeat(s, b, flushSize).s) && Heartbeat(s, b, flushSize).exit != Raised(Throttled)
  {
    assert CopiedIds(Heartbeat(s, b, flushSize).s) == CopiedIds(s);
  }

  lemma CreditTight(s: State, file: Item, u: Upload, t: State)
    requires Tight(s) && file.id !in s.done && u.file == file.id && t == s.(uploads := s.uploads + [u])
    ensures
      var w := Credited(t, file);
      w.done == CopiedIds(w) && w.progress == |w.done| && NoFileTwice(w.uploads)
  {
    UploadGrows(s, u, t);
    assert CopiedIds(Credited(t, file)) == CopiedIds(t);
    StillOnce(s, u);
  }

  lemma StillOnce(s: State, u: Upload)
    requires NoFileTwice(s.uploads) && u.file !in CopiedIds(s)
    ensures NoFileTwice(s.uploads + [u])
  {
    forall i | 0 <= i < |s.uploads| ensures s.uploads[i].file != u.file {
      assert s.uploads[i] in s.uploads;
    }
  }

  lemma OneFileTight(s: State, c: Settings, file: Item, f: FileScript)
    requires Tight(s)
    ensures Tight(OneFile(s, c, file, f).s) && OneFile(s, c, file, f).exit != Raised(Throttled)
  {
    CopyEffect(s, c, file, f.attempts, 0, false);
    var r := Copy(s, c, file, f.attempts, 0, false);
    if file.id !in s.done && r.exit == Go {
      var t := if r.ok then Credited(r.s, file) else r.s;
      if r.ok {
        CreditTight(s, file, Upload(file.id, DstParent(s, c, file)), r.s);
      }
      assert !r.ok ==> CopiedIds(r.s) == CopiedIds(s);
      HeartbeatTight(t, f.beat, c.flushSize);
      assert OneFile(s, c, file, f) == Heartbeat(t, f.beat, c.flushSize);
    }
  }

  lemma {:induction false} CopyFilesTight(s: State, c: Settings, files: seq<Item>, i: nat, script: Script)
    requires Tight(s) && i <= |files|
    ensures Tight(CopyFiles(s, c, files, i, script).s)
    ensures CopyFiles(s, c, files, i, script).exit != Raised(Throttled)
    decreases |files| - i
  {
    if i < |files| && !s.cancelled && !script.files(i).stop {
      var r := OneFile(s, c, files[i], script.files(i));
      OneFileTight(s, c, files[i], script.files(i));
      if r.exit == Go {
        CopyFilesTight(r.s, c, files, i + 1, script);
      }
    }
  }

  lemma ApplyFeedTight(s: State, c: Settings, feed: seq<Item>, script: Script)
    requires Tight(s)
    ensures Tight(ApplyFeed(s, c, feed, script).s)
  {
    CopyFoldersFrame(s, c, ByDepth(Folders(feed)), 0, script);
    var q := CopyFolders(s, c, ByDepth(Folders(feed)), 0, script);
    assert CopiedIds(q.s) == CopiedIds(s);
    if q.exit == Go && !q.stopped {
      CopyFilesTight(q.s, c, Files(feed), 0, script);
    }
  }

  /** The body leaves a tight memory, with the list written back unless it was killed. */
  lemma BodyTight(s: State, c: Settings, feed: seq<Item>, script: Script)
    requires Tight(s)
    ensures
      var r := Body(s, c, feed, script);
      Tight(r.s) && (r.exit != Killed ==> r.s.cp.itemsDone == r.s.done)
  {
    ApplyFeedTight(s, c, feed, script);
    var a := if script.enumeration.Ok? then ApplyFeed(s, c, feed, script).s else s;
    assert CopiedIds(Body(s, c, feed, script).s) == CopiedIds(a);
  }

  // ----- what a flush inside the body persists -----

  /** Whatever was persisted since `b` carries the list and the link of its load, with a counter in between. */
  predicate Stale(b: State, s: State) {
    && s.persisted.deltaLink == s.cp.deltaLink == b.persisted.deltaLink
    && s.persisted.itemsDone == s.cp.itemsDone == b.persisted.itemsDone
    && b.persisted.progress <= s.persisted.progress <= s.cp.progress <= s.progress
  }

  lemma HeartbeatStale(b: State, s: State, beat: Beat, flushSize: nat)
    requires Stale(b, s)
    ensures Stale(b, Heartbeat(s, beat, flushSize).s)
  {
  }

  lemma OneFileStale(b: State, s: State, c: Settings, file: Item, f: FileScript)
    requires Stale(b, s)
    ensures Stale(b, OneFile(s, c, file, f).s)
  {
    CopyEffect(s, c, file, f.attempts, 0, false);
    var r := Copy(s, c, file, f.attempts, 0, false);
    if file.id !in s.done && r.exit == Go {
      HeartbeatStale(b, if r.ok then Credited(r.s, file) else r.s, f.beat, c.flushSize);
    }
  }

  lemma {:induction false} CopyFilesStale(b: State, s: State, c: Settings, files: seq<Item>, i: nat, script: Script)
    requires Stale(b, s) && i <= |files|
    ensures Stale(b, CopyFiles(s, c, files, i, script).s)
    decreases |files| - i
  {
    if i < |files| && !s.cancelled && !script.files(i).stop {
      var r := OneFile(s, c, files[i], script.files(i));
      OneFileStale(b, s, c, files[i], script.files(i));
      if r.exit == Go {
        CopyFilesStale(b, r.s, c, files, i + 1, script);
      }
    }
  }

  lemma ApplyFeedStale(b: State, s: State, c: Settings, feed: seq<Item>, script: Script)
    requires Stale(b, s)
    ensures Stale(b, ApplyFeed(s, c, feed, script).s)
  {
    CopyFoldersFrame(s, c, ByDepth(Folders(feed)), 0, script);
    var q := CopyFolders(s, c, ByDepth(Folders(feed)), 0, script);
    if q.exit == Go && !q.stopped {
      CopyFilesStale(b, q.s, c, Files(feed), 0, script);
    }
  }

  lemma BodyStale(b: State, s: State, c: Settings, feed: seq<Item>, script: Script)
    requires Stale(b, s)
    ensures
      var t := Body(s, c, feed, script).s;
      && t.persisted.itemsDone == b.persisted.itemsDone && t.persisted.deltaLink == b.persisted.deltaLink
      && (Body(s, c, feed, script).exit != Go ==> t.cp.deltaLink == b.persisted.deltaLink)
      && b.persisted.progress <= t.persisted.progress <= t.progress
  {
    ApplyFeedStale(b, s, c, feed, script);
  }

  // ----- exactness, exactly -----

  /** A full flush of a tight memory with a written-back list is exact. */
  lemma FlushExact(s: State, t: State)
    requires Tight(s) && s.cp.itemsDone == s.done
    requires t.persisted == s.cp && t.uploads == s.uploads
    ensures Exact(t)
  {
    assert CopiedIds(t) == CopiedIds(s);
  }

  /** What is persisted after the whole handling: the body's last, or its written-back memory. */
  lemma HandledPersists(s: State, c: Settings, feed: seq<Item>, script: Script)
    requires script.opening == Ok && script.resolution == Ok
    ensures
      var b := Body(Rooted(Loaded(s), c), c, feed, script);
      var t := Handled(s, c, feed, script).s;
      && t.uploads == b.s.uploads
      && t.persisted == if FlushedAfter(s, c, feed, script) then b.s.cp else b.s.persisted
  {
    var b := Body(Rooted(Loaded(s), c), c, feed, script);
    if b.exit == Go {
      ClosingFlushes(b.s, script);
    }
  }

  lemma ClosingFlushes(s: State, script: Script)
    ensures
      var r := Closing(s, script);
      && r.s.uploads == s.uploads && r.s.cp == s.cp
      && r.s.persisted == (if ClosingReaches(s, script) && TookEffect(script.closingFlush) then s.cp else s.persisted)
      && (r.exit == Go ==> r.s.persisted == s.cp)
      && (r.exit.Raised? ==> !r.exit.exn.Graph?)
  {
  }

  /** A run that ends before the body has copied nothing and changes nothing that is persisted. */
  lemma EarlyEnd(s: State, c: Settings, feed: seq<Item>, script: Script)
    requires script.opening != Ok || script.resolution != Ok
    ensures
      var t := Handled(s, c, feed, script).s;
      t.uploads == s.uploads && t.persisted == s.persisted
  {
  }

  lemma LoadedStale(s: State, c: Settings)
    ensures Stale(s, Rooted(Loaded(s), c))
  {
  }

  /** From an exact checkpoint the body starts tight. */
  lemma LoadedTight(s: State, c: Settings)
    requires Exact(s)
    ensures Tight(Rooted(Loaded(s), c))
  {
    assert CopiedIds(Rooted(Loaded(s), c)) == CopiedIds(s);
  }

  /** A list that was not written back after a copy misses the copied file. */
  lemma UnflushedInexact(s: State, t: State)
    requires Exact(s) && t.persisted.itemsDone == s.persisted.itemsDone
    requires |s.uploads| <= |t.uploads| && t.uploads[..|s.uploads|] == s.uploads && t.uploads != s.uploads
    requires forall k | |s.uploads| <= k < |t.uploads| :: t.uploads[k].file !in s.persisted.itemsDone
    ensures !Exact(t)
  {
    assert t.uploads[..|t.uploads|] == t.uploads;
    var u := t.uploads[|s.uploads|];
    assert u in t.uploads && u.file in CopiedIds(t);
  }

  /** Without a copy the counter cannot have moved either. */
  lemma UncopiedExact(s: State, b: State, t: State)
    requires Exact(s) && Tight(b) && b.uploads == s.uploads && t.uploads == s.uploads
    requires t.persisted == b.persisted && t.persisted.itemsDone == s.persisted.itemsDone
    requires s.persisted.progress <= t.persisted.progress <= b.progress
    ensures Exact(t)
  {
    assert CopiedIds(b) == CopiedIds(s) == CopiedIds(t);
  }

  /**
   * From an exact checkpoint - it names exactly the copied files, counts them, and none was copied
   * twice - a handling leads to an exact one if and only if it copied nothing or some flush took
   * effect after the list was written back at the end of the body.
   */
  lemma HandledExactIff(s: State, c: Settings, feed: seq<Item>, script: Script)
    requires Exact(s)
    ensures Exact(Handled(s, c, feed, script).s) <==> CleanEnd(s, c, feed, script)
  {
    var t := Handled(s, c, feed, script).s;
    if script.opening != Ok || script.resolution != Ok {
      EarlyEnd(s, c, feed, script);
      assert CopiedIds(t) == CopiedIds(s);
    } else {
      var q := Rooted(Loaded(s), c);
      var b := Body(q, c, feed, script);
      LoadedTight(s, c);
      LoadedStale(s, c);
      BodyTight(q, c, feed, script);
      BodyStale(s, q, c, feed, script);
      HandledPersists(s, c, feed, script);
      if FlushedAfter(s, c, feed, script) {
        FlushExact(b.s, t);
      } else if t.uploads == s.uploads {
        UncopiedExact(s, b.s, t);
      } else {
        DoneNeverRecopied(s, c, feed, script);
        UnflushedInexact(s, t);
      }
    }
  }

  /** The checkpoint stays exact throughout a chain of runs if and only if each of them ended clean. */
  lemma {:induction false} CleanChainIff(ch: Chain, c: Settings)
    ensures CleanChain(ch, c) <==> ExactThroughout(ch, c)
    ensures CleanChain(ch, c) ==> Exact(After(ch, c))
  {
    if ch.Then? {
      CleanChainIff(ch.prev, c);
      if CleanChain(ch.prev, c) {
        HandledExactIff(After(ch.prev, c), c, ch.feed, ch.script);
      }
    }
  }

  /** A heartbeat that flushes and then fails: the next run copies the file again and counts it twice. */
  lemma UncleanRunRecopies()
    ensures
      var failing := SimpleScript(false, Beat(true, Ok, Ok, false, Fail(Other, false)));
      var s := After(Then(Then(Fresh, ONE_FILE, failing), ONE_FILE, SimpleScript(false, CALM)), SETTINGS);
      s.uploads == [Upload(5, 2), Upload(5, 2)] && s.persisted.itemsDone == {5} && s.persisted.progress == 2
  {
    var failing := SimpleScript(false, Beat(true, Ok, Ok, false, Fail(Other, false)));
    assert Files(ONE_FILE) == ONE_FILE && Folders(ONE_FILE) == [];
    var first := After(Then(Fresh, ONE_FILE, failing), SETTINGS);
    assert first.persisted == Checkpoint(map[1 := 2], {}, None, 1, 10) && first.uploads == [Upload(5, 2)];
    assert first.sent == [];
  }

  // ----- what a persisted delta link stands for -----

  /** The link changes only after the body returned, its records were sent, and a flush took effect. */
  lemma LinkChanges(s: State, c: Settings, feed: seq<Item>, script: Script)
    requires Handled(s, c, feed, script).s.persisted.deltaLink != s.persisted.deltaLink
    ensures script.opening == Ok && script.resolution == Ok
    ensures
      var b := Body(Rooted(Loaded(s), c), c, feed, script);
      b.exit == Go && ClosingReaches(b.s, script)
  {
    if script.opening != Ok || script.resolution != Ok {
      EarlyEnd(s, c, feed, script);
    } else {
      HandledPersists(s, c, feed, script);
      LoadedStale(s, c);
      BodyStale(s, Rooted(Loaded(s), c), c, feed, script);
    }
  }

  /** From there on nothing is copied, and the records that were waiting are delivered. */
  lemma ReachedClosingSends(s: State, c: Settings, feed: seq<Item>, script: Script)
    requires script.opening == Ok && script.resolution == Ok
    requires Body(Rooted(Loaded(s), c), c, feed, script).exit == Go
    requires ClosingReaches(Body(Rooted(Loaded(s), c), c, feed, script).s, script)
    ensures Accounted(Handled(s, c, feed, script).s) == Noted(Body(Rooted(Loaded(s), c), c, feed, script).s)
  {
    var b := Body(Rooted(Loaded(s), c), c, feed, script).s;
    ClosingSent(b, script);
    ClosingFlushes(b, script);
    EpilogueSent(Run(Loaded(s), c, feed, script), script);
  }

  lemma ClosingSent(s: State, script: Script)
    requires ClosingReaches(s, script)
    ensures Accounted(Closing(s, script).s) == Noted(s)
  {
  }

  lemma EpilogueSent(r: Result, script: Script)
    requires !(r.exit.Raised? && r.exit.exn.Graph?)
    ensures Accounted(Epilogue(r, script).s) == Accounted(r.s)
  {
  }

  /**
   * A new persisted link stands for exactly the files the pass reached: those, and no others, are newly accounted
   * for.
   */
  lemma LinkCoversExactly(s: State, c: Settings, feed: seq<Item>, script: Script)
    requires Durable(s) && Handled(s, c, feed, script).s.persisted.deltaLink != s.persisted.deltaLink
    ensures
      Accounted(Handled(s, c, feed, script).s) ==
      Accounted(s) + ItemIds(Files(feed)[..ReachedIn(Rooted(Loaded(s), c), c, feed, script)])
  {
    var q := Rooted(Loaded(s), c);
    assert CopiedIds(q) == CopiedIds(s);
    assert Noted(q) == Accounted(s);
    LinkChanges(s, c, feed, script);
    BodyNotes(q, c, feed, script);
    ReachedClosingSends(s, c, feed, script);
  }

  /** Files that no earlier run has dealt with, none of them enumerated twice. */
  predicate AllNew(s: State, files: seq<Item>) {
    && (forall i | 0 <= i < |files| :: files[i].id !in Accounted(s))
    && (forall i, j | 0 <= i < j < |files| :: files[i].id != files[j].id)
  }

  /**
   * Of new files, the persisted link stands for all of them if and only if no stop came before the last was
   * reached.
   */
  lemma LinkCoversIff(s: State, c: Settings, feed: seq<Item>, script: Script)
    requires Durable(s) && Handled(s, c, feed, script).s.persisted.deltaLink != s.persisted.deltaLink
    requires AllNew(s, Files(feed))
    ensures
      ItemIds(Files(feed)) <= Accounted(Handled(s, c, feed, script).s) <==>
      ReachedIn(Rooted(Loaded(s), c), c, feed, script) == |Files(feed)|
  {
    LinkCoversExactly(s, c, feed, script);
    PrefixCovers(s, Files(feed), ReachedIn(Rooted(Loaded(s), c), c, feed, script));
  }

  lemma PrefixCovers(s: State, files: seq<Item>, n: nat)
    requires n <= |files| && AllNew(s, files)
    ensures ItemIds(files) <= Accounted(s) + ItemIds(files[..n]) <==> n == |files|
  {
    if n == |files| {
      assert files[..n] == files;
    } else {
      assert files[n].id in ItemIds(files);
      assert forall i | 0 <= i < n :: files[..n][i] == files[i];
    }
  }

  /**
   * A stopped pass persists its link with the file neither copied nor recorded: no delta pass from there on sees
   * it.
   */
  lemma StoppedLinkForgets()
    ensures
      var r := Handled(BLANK, SETTINGS, ONE_FILE, SimpleScript(true, CALM).(deltaLink := Some("next")));
      && r.exit == Go && r.s.persisted.deltaLink == Some("next")
      && ONE_FILE[0] in Files(ONE_FILE) && 5 !in Accounted(r.s)
  {
    assert Files(ONE_FILE) == ONE_FILE;
  }

  // ----- items_done is never looked at again -----

  /** Copies were added, none of them of a file in `done`. */
  predicate Grown(before: seq<Upload>, after: seq<Upload>, done: set<Id>) {
    && before <= after
    && forall k | |before| <= k < |after| :: after[k].file !in done
  }

  lemma GrownTwice(u: seq<Upload>, v: seq<Upload>, w: seq<Upload>, early: set<Id>, late: set<Id>)
    requires Grown(u, v, early) && Grown(v, w, late) && early <= late
    ensures Grown(u, w, early)
  {
  }

  /** The copies made between two states of one run. */
  predicate Grew(s: State, t: State) {
    Grown(s.uploads, t.uploads, s.done) && s.done <= t.done
  }

  lemma OneFileGrows(s: State, c: Settings, file: Item, f: FileScript)
    ensures Grew(s, OneFile(s, c, file, f).s)
  {
    CopyEffect(s, c, file, f.attempts, 0, false);
  }

  lemma {:induction false} CopyFilesGrows(s: State, c: Settings, files: seq<Item>, i: nat, script: Script)
    requires i <= |files|
    ensures Grew(s, CopyFiles(s, c, files, i, script).s)
    decreases |files| - i
  {
    if i < |files| && !s.cancelled && !script.files(i).stop {
      OneFileGrows(s, c, files[i], script.files(i));
      var r := OneFile(s, c, files[i], script.files(i));
      if r.exit == Go {
        CopyFilesGrows(r.s, c, files, i + 1, script);
        GrownTwice(s.uploads, r.s.uploads, CopyFiles(r.s, c, files, i + 1, script).s.uploads, s.done, r.s.done);
      }
    }
  }

  lemma BodyGrows(q: State, c: Settings, feed: seq<Item>, script: Script)
    ensures
      var t := Body(q, c, feed, script).s;
      Grown(q.uploads, t.uploads, q.done)
  {
    CopyFoldersFrame(q, c, ByDepth(Folders(feed)), 0, script);
    CopyFilesGrows(CopyFolders(q, c, ByDepth(Folders(feed)), 0, script).s, c, Files(feed), 0, script);
  }

  /** All copies are made by the body. */
  lemma HandledUploads(s: State, c: Settings, feed: seq<Item>, script: Script)
    ensures
      var t := Handled(s, c, feed, script).s;
      t.uploads == s.uploads || t.uploads == Body(Rooted(Loaded(s), c), c, feed, script).s.uploads
  {
    if script.opening != Ok || script.resolution != Ok {
      EarlyEnd(s, c, feed, script);
    } else {
      HandledPersists(s, c, feed, script);
    }
  }

  /**
   * A file whose id is in the persisted `items_done` is never copied by a later run, whatever the run's
   * feed says about it; in particular a delta pass does not pick up its changes.
   */
  lemma DoneNeverRecopied(s: State, c: Settings, feed: seq<Item>, script: Script)
    ensures Grown(s.uploads, Handled(s, c, feed, script).s.uploads, s.persisted.itemsDone)
  {
    BodyGrows(Rooted(Loaded(s), c), c, feed, script);
    HandledUploads(s, c, feed, script);
  }
}
