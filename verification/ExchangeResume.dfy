/**
 * Exchange passes resumed: a completed unstopped one accounts for everything due, and whether a chain of
 * handlings can leave an item out is decided by the size at which the item log is flushed.
 */
module ExchangeResume {
  import opened Wrappers
  import opened Replies
  import opened Exchange
  import opened ExchangeProofs

  // ----- what a pass has to deal with -----

  /** The items a pass has to deal with: those of every folder of a matched mailbox that is not done yet. */
  datatype Due = Due(ids: seq<Id>, done: seq<Id>)

  function DueFolders(c: Settings, src: Source, folders: seq<Id>, i: nat, done: seq<Id>): Due
    requires i <= |folders|
    decreases |folders| - i
  {
    if i == |folders| then Due([], done)
    else if !c.isDelta && folders[i] in done then DueFolders(c, src, folders, i + 1, done)
    else
      var rest := DueFolders(c, src, folders, i + 1, Marked(c, folders[i], done));
      rest.(ids := Added(src.entries(folders[i])) + rest.ids)
  }

  function DueMailboxes(c: Settings, src: Source, i: nat, done: seq<Id>): Due
    requires i <= |src.mailboxes|
    decreases |src.mailboxes| - i
  {
    if i == |src.mailboxes| then Due([], done)
    else if !src.mailboxes[i].matched then DueMailboxes(c, src, i + 1, done)
    else
      var here := DueFolders(c, src, src.mailboxes[i].folders, 0, done);
      var rest := DueMailboxes(c, src, i + 1, here.done);
      rest.(ids := here.ids + rest.ids)
  }

  ghost predicate FoldersUnstopped(script: nat -> FolderScript) {
    forall i: nat :: !script(i).stop && !script(i).beat.cancelSeen && ChunksUnstopped(script(i).chunks)
  }

  /** No stop request and no cancellation is ever observed. */
  ghost predicate Unstopped(script: nat -> MailboxScript) {
    forall i: nat :: !script(i).stop && FoldersUnstopped(script(i).folders)
  }

  // ----- an unstopped run is answered exactly what is due -----

  lemma {:induction false} AllProcessed(n: nat, k: nat, script: nat -> ChunkScript)
    requires k <= n && ChunksUnstopped(script)
    ensures Processed(n, k, script, false) == n
    decreases n - k
  {
    if k < n {
      AllProcessed(n, k + 1, script);
    }
  }

  lemma {:induction false} NeverCancelled(n: nat, k: nat, script: nat -> ChunkScript)
    requires k <= n && ChunksUnstopped(script)
    ensures !ChunkFlow(n, k, script, false).cancelled
    decreases n - k
  {
    if k < n {
      NeverCancelled(n, k + 1, script);
    }
  }

  /** Of a folder looked at without a stop, everything is answered. */
  lemma WholeFolder(entries: seq<Entry>, script: nat -> ChunkScript)
    requires ChunksUnstopped(script) && OneEntryEach(Chunks(Added(entries), MAX_EXPORT_BATCH), script)
    ensures
      var r := ChunkFlow(|Chunks(Added(entries), MAX_EXPORT_BATCH)|, 0, script, false);
      multiset(r.ids) == multiset(Somes(Added(entries))) && !r.cancelled
  {
    var chunks := Chunks(Added(entries), MAX_EXPORT_BATCH);
    AllProcessed(|chunks|, 0, script);
    NeverCancelled(|chunks|, 0, script);
    ChunkFlowIs(chunks, 0, script, false);
    ChunksPartition(Added(entries), MAX_EXPORT_BATCH);
    assert chunks[0..|chunks|] == chunks;
  }

  predicate Agrees(f: Flow, d: Due) {
    multiset(f.ids) == multiset(Somes(d.ids)) && f.done == d.done && !f.cancelled && !f.stopped
  }

  lemma JoinAgrees(f: Flow, rest: Flow, ids: seq<Id>, d: Due)
    requires multiset(f.ids) == multiset(Somes(ids)) && Agrees(rest, d)
    ensures Agrees(rest.(ids := f.ids + rest.ids), d.(ids := ids + d.ids))
  {
    SomesConcat(ids, d.ids);
  }

  lemma NoneDue()
    ensures Somes([]) == []
  {
  }

  lemma {:induction false} FoldersFlowDue(c: Settings, src: Source, folders: seq<Id>, i: nat,
                                          script: nat -> FolderScript, done: seq<Id>)
    requires i <= |folders| && FoldersUnstopped(script) && FoldersAnswered(src, folders, script)
    ensures Agrees(FoldersFlow(c, src, folders, i, script, done, false), DueFolders(c, src, folders, i, done))
    decreases |folders| - i
  {
    if i == |folders| {
      NoneDue();
    } else {
      var f := FolderFlow(c, folders[i], src.entries(folders[i]), script(i), done, false);
      WholeFolder(src.entries(folders[i]), script(i).chunks);
      FoldersFlowDue(c, src, folders, i + 1, script, f.done);
      var rest := FoldersFlow(c, src, folders, i + 1, script, f.done, false);
      if c.isDelta || folders[i] !in done {
        JoinAgrees(f, rest, Added(src.entries(folders[i])), DueFolders(c, src, folders, i + 1, f.done));
      } else {
        assert [] + rest.ids == rest.ids;
      }
    }
  }

  lemma {:induction false} MailboxesFlowDue(c: Settings, src: Source, i: nat, script: nat -> MailboxScript,
                                            done: seq<Id>)
    requires i <= |src.mailboxes| && Unstopped(script) && Answered(src, script)
    ensures Agrees(MailboxesFlow(c, src, i, script, done, false), DueMailboxes(c, src, i, done))
    decreases |src.mailboxes| - i
  {
    if i == |src.mailboxes| {
      NoneDue();
    } else if !src.mailboxes[i].matched {
      MailboxesFlowDue(c, src, i + 1, script, done);
    } else {
      var folders := src.mailboxes[i].folders;
      FoldersFlowDue(c, src, folders, 0, script(i).folders, done);
      var f := FoldersFlow(c, src, folders, 0, script(i).folders, done, false);
      var here := DueFolders(c, src, folders, 0, done);
      MailboxesFlowDue(c, src, i + 1, script, f.done);
      JoinAgrees(f, MailboxesFlow(c, src, i + 1, script, f.done, false), here.ids, DueMailboxes(c, src, i + 1, f.done));
    }
  }

  /**
   * An unstopped run that returns COMPLETED, if every export response held one entry per id: the
   * enumerated items of the folders it migrated are its imports and its sent item records together,
   * item for item, and the records are the logged ones in order.
   */
  lemma UnstoppedRunAccounts(s: State, c: Settings, src: Source, script: Script)
    requires Unstopped(script.mailboxes) && Answered(src, script.mailboxes)
    requires ReturnsCompleted(Run(Loaded(s), c, src, script))
    ensures
      var t := Run(Loaded(s), c, src, script).s;
      var due := DueMailboxes(c, src, 0, s.persisted.foldersDone);
      && Tally(t) == multiset(ImportIds(s.imports)) + multiset(Somes(due.ids))
      && |due.ids| == t.succeeded + (|t.sent| - |s.sent|)
      && t.sent == s.sent + t.logged
      && t.progress == s.persisted.progress + t.succeeded
      && t.persisted.foldersDone == due.done
  {
    var f := RunFlow(s, c, src, script);
    var due := DueMailboxes(c, src, 0, s.persisted.foldersDone);
    MailboxesFlowDue(c, src, 0, script.mailboxes, s.persisted.foldersDone);
    CompletedAccountsExactly(s, c, src, script);
    CompletedFollows(s, c, src, script);
    assert |multiset(f.ids)| == |f.ids|;
    assert |multiset(Somes(due.ids))| == |due.ids|;
  }

  // ----- items that are dealt with -----

  predicate ImportedId(s: State, x: Id) {
    exists i :: 0 <= i < |s.imports| && s.imports[i].item == x
  }

  predicate ReportedIn(records: seq<Record>, x: Id) {
    exists i :: 0 <= i < |records| && records[i].item == Some(x)
  }

  /** Imported by some run, or its record delivered. */
  predicate Delivered(s: State, x: Id) {
    ImportedId(s, x) || ReportedIn(s.sent, x)
  }

  /** Delivered, or, as long as that need not be `sure`, at least logged in this run. */
  predicate Noted(s: State, x: Id, sure: bool) {
    Delivered(s, x) || (!sure && ReportedIn(s.logged, x))
  }

  predicate FolderNoted(s: State, src: Source, folder: Id, sure: bool) {
    forall x | x in Added(src.entries(folder)) :: Noted(s, x, sure)
  }

  predicate AllNoted(s: State, src: Source, folders: seq<Id>, sure: bool) {
    forall f | f in folders :: FolderNoted(s, src, f, sure)
  }

  predicate FolderDelivered(s: State, src: Source, folder: Id) {
    forall x | x in Added(src.entries(folder)) :: Delivered(s, x)
  }

  /** Every item of every folder the persisted checkpoint calls done is imported or reported. */
  predicate AllDelivered(s: State, src: Source) {
    forall f | f in s.persisted.foldersDone :: FolderDelivered(s, src, f)
  }

  /** The folders marked done, in memory and in the persisted checkpoint, are noted. */
  predicate Durable(s: State, src: Source, sure: bool) {
    AllNoted(s, src, s.persisted.foldersDone, sure) && AllNoted(s, src, s.cp.foldersDone, sure)
  }

  /** What it takes to be sure: a pass that marks no folders, or books in order with nothing waiting in the buffer. */
  predicate Ready(s: State, b: State, c: Settings, sure: bool) {
    sure ==> c.isDelta || (c.flushSize <= 1 && Sound(s, b) && s.buffer == [])
  }

  /** A step of a run only adds to these. */
  predicate Grows(s: State, t: State) {
    s.imports <= t.imports && s.sent <= t.sent && s.logged <= t.logged
  }

  /** A step that marks no folder: what is persisted is what was, or what was in memory. */
  predicate MarksNone(s: State, t: State) {
    && t.cp.foldersDone == s.cp.foldersDone
    && (t.persisted.foldersDone == s.persisted.foldersDone || t.persisted.foldersDone == s.cp.foldersDone)
  }

  lemma GrowsOn(s: State, t: State, u: State)
    requires Grows(s, t) && Grows(t, u)
    ensures Grows(s, u)
  {
  }

  lemma NotedStays(s: State, t: State, x: Id, sure: bool)
    requires Grows(s, t) && Noted(s, x, sure)
    ensures Noted(t, x, sure)
  {
    if ImportedId(s, x) {
      var i :| 0 <= i < |s.imports| && s.imports[i].item == x;
      assert t.imports[i].item == x;
    } else if ReportedIn(s.sent, x) {
      var i :| 0 <= i < |s.sent| && s.sent[i].item == Some(x);
      assert t.sent[i].item == Some(x);
    } else {
      var i :| 0 <= i < |s.logged| && s.logged[i].item == Some(x);
      assert t.logged[i].item == Some(x);
    }
  }

  lemma AllNotedStays(s: State, t: State, src: Source, folders: seq<Id>, sure: bool)
    requires Grows(s, t) && AllNoted(s, src, folders, sure)
    ensures AllNoted(t, src, folders, sure)
  {
    forall f, x | f in folders && x in Added(src.entries(f)) ensures Noted(t, x, sure) {
      assert FolderNoted(s, src, f, sure);
      NotedStays(s, t, x, sure);
    }
  }

  lemma DurableStays(s: State, t: State, src: Source, sure: bool)
    requires Durable(s, src, sure) && Grows(s, t) && MarksNone(s, t)
    ensures Durable(t, src, sure)
  {
    AllNotedStays(s, t, src, s.persisted.foldersDone, sure);
    AllNotedStays(s, t, src, s.cp.foldersDone, sure);
  }

  /** What is in the tally is noted. */
  lemma TallyNoted(s: State, x: Id)
    requires Some(x) in Tally(s)
    ensures Noted(s, x, false)
  {
    if Some(x) in multiset(ImportIds(s.imports)) {
      assert Some(x) in ImportIds(s.imports);
      var i :| 0 <= i < |s.imports| && ImportIds(s.imports)[i] == Some(x);
      assert s.imports[i].item == x;
    } else {
      assert Some(x) in RecordIds(s.logged);
      var i :| 0 <= i < |s.logged| && RecordIds(s.logged)[i] == Some(x);
      assert s.logged[i].item == Some(x);
    }
  }

  // ----- each step grows -----

  lemma {:induction false} ImportOneGrows(s: State, c: Settings, item: Id, dst: Id, attempts: nat -> Attempt, k: nat,
                                          auth: bool)
    ensures Grows(s, ImportOne(s, c, item, dst, attempts, k, auth).s)
    decreases c.maxRetries + 1 - k
  {
    if k <= c.maxRetries && attempts(k).Transient? {
      ImportOneGrows(s, c, item, dst, attempts, k + 1, attempts(k).auth);
    }
  }

  lemma {:induction false} ImportAllGrows(s: State, c: Settings, items: seq<Exported>, j: nat, dst: Id,
                                          imports: nat -> nat -> Attempt)
    requires j <= |items|
    ensures Grows(s, ImportAll(s, c, items, j, dst, imports).s)
    decreases |items| - j
  {
    if j < |items| {
      var r := ImportThenCredit(s, c, items[j], dst, imports(j));
      ImportOneGrows(s, c, items[j].item, dst, imports(j), 0, false);
      if r.exit == Go {
        ImportAllGrows(r.s, c, items, j + 1, dst, imports);
        GrowsOn(s, r.s, ImportAll(r.s, c, items, j + 1, dst, imports).s);
      }
    }
  }

  lemma HeartbeatGrows(s: State, b: Beat, flushSize: nat)
    ensures Grows(s, Heartbeat(s, b, flushSize).s) && MarksNone(s, Heartbeat(s, b, flushSize).s)
  {
    HeartbeatFrame(s, b, flushSize);
    HeartbeatSends(s, b, flushSize);
  }

  lemma ChunkThenBeatGrows(s: State, c: Settings, ids: seq<Id>, dst: Id, ch: ChunkScript)
    ensures Grows(s, ChunkThenBeat(s, c, ids, dst, ch).s) && MarksNone(s, ChunkThenBeat(s, c, ids, dst, ch).s)
  {
    var x := Exports(ids, ch);
    OneChunkKeeps(s, c, ids, dst, ch);
    var r := OneChunk(s, c, ids, dst, ch);
    if x.exit == Go {
      ImportAllGrows(Logging(s, SkippedRecords(x.split.errors)), c, x.split.exported, 0, dst, ch.imports);
    }
    HeartbeatGrows(r.s, ch.beat, c.flushSize);
    GrowsOn(s, r.s, Heartbeat(r.s, ch.beat, c.flushSize).s);
  }

  lemma {:induction false} CopyChunksGrows(s: State, c: Settings, chunks: seq<seq<Id>>, k: nat, dst: Id,
                                           script: nat -> ChunkScript)
    requires k <= |chunks|
    ensures Grows(s, CopyChunks(s, c, chunks, k, dst, script).s)
    ensures MarksNone(s, CopyChunks(s, c, chunks, k, dst, script).s)
    decreases |chunks| - k
  {
    if k < |chunks| && !s.cancelled && !script(k).stop {
      var r := ChunkThenBeat(s, c, chunks[k], dst, script(k));
      ChunkThenBeatGrows(s, c, chunks[k], dst, script(k));
      if r.exit == Go {
        CopyChunksGrows(r.s, c, chunks, k + 1, dst, script);
        GrowsOn(s, r.s, CopyChunks(r.s, c, chunks, k + 1, dst, script).s);
      }
    }
  }

  lemma FolderItemsGrows(s: State, c: Settings, folder: Id, entries: seq<Entry>, dst: Id, f: FolderScript)
    ensures Grows(s, FolderItems(s, c, folder, entries, dst, f).s)
    ensures MarksNone(s, FolderItems(s, c, folder, entries, dst, f).s)
  {
    CopyChunksGrows(s, c, Chunks(Added(entries), MAX_EXPORT_BATCH), 0, dst, f.chunks);
  }

  // ----- a flush size of one leaves nothing waiting after a heartbeat -----

  lemma HeartbeatEmpties(s: State, b: Beat, flushSize: nat)
    requires flushSize <= 1 && Heartbeat(s, b, flushSize).exit == Go
    ensures Heartbeat(s, b, flushSize).s.buffer == []
  {
  }

  lemma {:induction false} CopyChunksEmpties(s: State, c: Settings, chunks: seq<seq<Id>>, k: nat, dst: Id,
                                             script: nat -> ChunkScript)
    requires k <= |chunks| && c.flushSize <= 1 && s.buffer == []
    requires CopyChunks(s, c, chunks, k, dst, script).exit == Go
    ensures CopyChunks(s, c, chunks, k, dst, script).s.buffer == []
    decreases |chunks| - k
  {
    if k < |chunks| && !s.cancelled && !script(k).stop {
      var r := OneChunk(s, c, chunks[k], dst, script(k));
      HeartbeatEmpties(r.s, script(k).beat, c.flushSize);
      CopyChunksEmpties(Heartbeat(r.s, script(k).beat, c.flushSize).s, c, chunks, k + 1, dst, script);
    }
  }

  lemma FolderItemsReady(s: State, b: State, c: Settings, folder: Id, entries: seq<Entry>, dst: Id, f: FolderScript,
                         sure: bool)
    requires Ready(s, b, c, sure) && FolderItems(s, c, folder, entries, dst, f).exit == Go
    ensures Ready(FolderItems(s, c, folder, entries, dst, f).s, b, c, sure)
  {
    if sure && !c.isDelta {
      FolderItemsSound(s, b, c, folder, entries, dst, f);
      CopyChunksEmpties(s, c, Chunks(Added(entries), MAX_EXPORT_BATCH), 0, dst, f.chunks);
    }
  }

  lemma OneFolderReady(s: State, b: State, c: Settings, folder: Id, entries: seq<Entry>, f: FolderScript, sure: bool)
    requires Ready(s, b, c, sure) && OneFolder(s, c, folder, entries, f).exit == Go
    ensures Ready(OneFolder(s, c, folder, entries, f).s, b, c, sure)
  {
    if sure && !c.isDelta && folder !in s.cp.foldersDone {
      OneFolderSound(s, b, c, folder, entries, f);
      var e := EnsureFolder(s, folder, f);
      var r := FolderItems(e.s, c, folder, entries, e.dst, f);
      HeartbeatEmpties(MarkedDone(r.s, c, folder), f.beat, c.flushSize);
    }
  }

  lemma {:induction false} CopyFoldersReady(s: State, b: State, c: Settings, src: Source, folders: seq<Id>, i: nat,
                                            script: nat -> FolderScript, sure: bool)
    requires i <= |folders| && Ready(s, b, c, sure) && CopyFolders(s, c, src, folders, i, script).exit == Go
    ensures Ready(CopyFolders(s, c, src, folders, i, script).s, b, c, sure)
    decreases |folders| - i
  {
    if i < |folders| && !s.cancelled && !script(i).stop {
      OneFolderReady(s, b, c, folders[i], src.entries(folders[i]), script(i), sure);
      var r := OneFolder(s, c, folders[i], src.entries(folders[i]), script(i));
      CopyFoldersReady(r.s, b, c, src, folders, i + 1, script, sure);
    }
  }

  lemma OneMailboxReady(s: State, b: State, c: Settings, src: Source, folders: seq<Id>, m: MailboxScript, sure: bool)
    requires Ready(s, b, c, sure) && OneMailbox(s, c, src, folders, m).exit == Go
    ensures Ready(OneMailbox(s, c, src, folders, m).s, b, c, sure)
  {
    CopyFoldersReady(s, b, c, src, folders, 0, m.folders, sure);
    SameBooksSound(CopyFolders(s, c, src, folders, 0, m.folders).s, OneMailbox(s, c, src, folders, m).s, Go, b);
  }

  // ----- a folder is marked only when all its items are noted -----

  lemma FolderNotedAfter(s: State, c: Settings, src: Source, folder: Id, dst: Id, f: FolderScript)
    requires !s.cancelled && ChunksUnstopped(f.chunks)
    requires OneEntryEach(Chunks(Added(src.entries(folder)), MAX_EXPORT_BATCH), f.chunks)
    requires FolderItems(s, c, folder, src.entries(folder), dst, f).exit == Go
    ensures FolderNoted(FolderItems(s, c, folder, src.entries(folder), dst, f).s, src, folder, false)
  {
    var ids := Added(src.entries(folder));
    var t := FolderItems(s, c, folder, src.entries(folder), dst, f).s;
    FolderItemsTally(s, c, folder, src.entries(folder), dst, f);
    WholeFolder(src.entries(folder), f.chunks);
    forall x | x in ids ensures Noted(t, x, false) {
      var i :| 0 <= i < |ids| && ids[i] == x;
      assert Somes(ids)[i] == Some(x);
      assert Some(x) in multiset(Somes(ids));
      TallyNoted(t, x);
    }
  }

  /** With the books in order and nothing waiting, what is logged is delivered. */
  lemma NotedIsSure(s: State, b: State, c: Settings, src: Source, folder: Id, sure: bool)
    requires Ready(s, b, c, sure) && !c.isDelta && FolderNoted(s, src, folder, false)
    ensures FolderNoted(s, src, folder, sure)
  {
    if sure {
      assert s.sent == b.sent + s.logged;
      forall x | x in Added(src.entries(folder)) ensures Delivered(s, x) {
        assert Noted(s, x, false);
        AllSent(b, s, x);
      }
    }
  }

  lemma AllSent(s: State, t: State, x: Id)
    requires t.sent == s.sent + t.logged && Noted(t, x, false)
    ensures Delivered(t, x)
  {
    if ReportedIn(t.logged, x) {
      var i :| 0 <= i < |t.logged| && t.logged[i].item == Some(x);
      assert t.sent[|s.sent| + i] == t.logged[i];
    }
  }

  lemma MarkDurable(s: State, c: Settings, src: Source, folder: Id, b: Beat, sure: bool)
    requires Durable(s, src, sure) && (c.isDelta || FolderNoted(s, src, folder, sure))
    ensures Durable(Heartbeat(MarkedDone(s, c, folder), b, c.flushSize).s, src, sure)
  {
    var m := MarkedDone(s, c, folder);
    AllNotedStays(s, m, src, s.persisted.foldersDone, sure);
    AllNotedStays(s, m, src, s.cp.foldersDone, sure);
    NotedMark(s, m, c, src, folder, sure);
    HeartbeatGrows(m, b, c.flushSize);
    DurableStays(m, Heartbeat(m, b, c.flushSize).s, src, sure);
  }

  lemma NotedMark(s: State, m: State, c: Settings, src: Source, folder: Id, sure: bool)
    requires m == MarkedDone(s, c, folder) && (c.isDelta || FolderNoted(s, src, folder, sure))
    requires AllNoted(m, src, s.cp.foldersDone, sure)
    ensures AllNoted(m, src, m.cp.foldersDone, sure)
  {
    if !c.isDelta {
      forall x | x in Added(src.entries(folder)) ensures Noted(m, x, sure) {
        NotedStays(s, m, x, sure);
      }
    }
  }

  lemma OneFolderDurable(s: State, b: State, c: Settings, src: Source, folder: Id, f: FolderScript, sure: bool)
    requires Durable(s, src, sure) && Ready(s, b, c, sure) && !s.cancelled && ChunksUnstopped(f.chunks)
    requires OneEntryEach(Chunks(Added(src.entries(folder)), MAX_EXPORT_BATCH), f.chunks)
    ensures Durable(OneFolder(s, c, folder, src.entries(folder), f).s, src, sure)
  {
    var entries := src.entries(folder);
    if !(folder in s.cp.foldersDone && !c.isDelta) {
      var e := EnsureFolder(s, folder, f);
      EnsureFrame(s, folder, f);
      DurableStays(s, e.s, src, sure);
      if e.exit == Go {
        var r := FolderItems(e.s, c, folder, entries, e.dst, f);
        FolderItemsGrows(e.s, c, folder, entries, e.dst, f);
        DurableStays(e.s, r.s, src, sure);
        if r.exit == Go {
          FolderNotedAfter(e.s, c, src, folder, e.dst, f);
          SameBooksSound(s, e.s, Go, b);
          FolderItemsReady(e.s, b, c, folder, entries, e.dst, f, sure);
          if !c.isDelta { NotedIsSure(r.s, b, c, src, folder, sure); }
          MarkDurable(r.s, c, src, folder, f.beat, sure);
        }
      }
    }
  }

  /** No stop is seen inside a folder; between folders and between mailboxes it may be. */
  ghost predicate WholeFolders(script: nat -> MailboxScript) {
    forall i: nat, j: nat :: ChunksUnstopped(script(i).folders(j).chunks)
  }

  lemma {:induction false} CopyFoldersDurable(s: State, b: State, c: Settings, src: Source, folders: seq<Id>, i: nat,
                                              script: nat -> FolderScript, sure: bool)
    requires i <= |folders| && Durable(s, src, sure) && Ready(s, b, c, sure)
    requires (forall j: nat :: ChunksUnstopped(script(j).chunks)) && FoldersAnswered(src, folders, script)
    ensures Durable(CopyFolders(s, c, src, folders, i, script).s, src, sure)
    decreases |folders| - i
  {
    if i < |folders| && !s.cancelled && !script(i).stop {
      var r := OneFolder(s, c, folders[i], src.entries(folders[i]), script(i));
      OneFolderDurable(s, b, c, src, folders[i], script(i), sure);
      if r.exit == Go {
        OneFolderReady(s, b, c, folders[i], src.entries(folders[i]), script(i), sure);
        CopyFoldersDurable(r.s, b, c, src, folders, i + 1, script, sure);
      }
    }
  }

  lemma OneMailboxDurable(s: State, b: State, c: Settings, src: Source, folders: seq<Id>, m: MailboxScript, sure: bool)
    requires Durable(s, src, sure) && Ready(s, b, c, sure)
    requires (forall j: nat :: ChunksUnstopped(m.folders(j).chunks)) && FoldersAnswered(src, folders, m.folders)
    ensures Durable(OneMailbox(s, c, src, folders, m).s, src, sure)
  {
    if m.enumeration == Ok {
      CopyFoldersDurable(s, b, c, src, folders, 0, m.folders, sure);
      DurableStays(CopyFolders(s, c, src, folders, 0, m.folders).s, OneMailbox(s, c, src, folders, m).s, src, sure);
    }
  }

  lemma {:induction false} CopyMailboxesDurable(s: State, b: State, c: Settings, src: Source, i: nat,
                                                script: nat -> MailboxScript, sure: bool)
    requires i <= |src.mailboxes| && Durable(s, src, sure) && Ready(s, b, c, sure)
    requires WholeFolders(script) && Answered(src, script)
    ensures Durable(CopyMailboxes(s, c, src, i, script).s, src, sure)
    decreases |src.mailboxes| - i
  {
    if i < |src.mailboxes| && !s.cancelled && !script(i).stop {
      if !src.mailboxes[i].matched {
        CopyMailboxesDurable(s, b, c, src, i + 1, script, sure);
      } else {
        var r := OneMailbox(s, c, src, src.mailboxes[i].folders, script(i));
        OneMailboxDurable(s, b, c, src, src.mailboxes[i].folders, script(i), sure);
        if r.exit == Go {
          OneMailboxReady(s, b, c, src, src.mailboxes[i].folders, script(i), sure);
          CopyMailboxesDurable(r.s, b, c, src, i + 1, script, sure);
        }
      }
    }
  }

  lemma FlushesDurable(s: State, r: Reply, src: Source, sure: bool)
    requires Durable(s, src, sure)
    ensures Durable(FlushItems(s, r).s, src, sure) && Durable(Flush(s, r).s, src, sure)
  {
    DurableStays(s, FlushItems(s, r).s, src, sure);
    DurableStays(s, Flush(s, r).s, src, sure);
  }

  lemma ClosingDurable(s: State, src: Source, script: Script, sure: bool)
    requires Durable(s, src, sure)
    ensures Durable(Closing(s, script).s, src, sure)
  {
    FlushesDurable(s, script.closingItems, src, sure);
    FlushesDurable(FlushItems(s, script.closingItems).s, script.closingFlush, src, sure);
  }

  lemma RunDurable(s: State, c: Settings, src: Source, script: Script, sure: bool)
    requires Durable(Loaded(s), src, sure) && WholeFolders(script.mailboxes) && Answered(src, script.mailboxes)
    requires sure ==> c.isDelta || c.flushSize <= 1
    ensures Durable(Run(Loaded(s), c, src, script).s, src, sure)
  {
    var l := Loaded(s);
    LoadedSound(s);
    CopyMailboxesDurable(l, l, c, src, 0, script.mailboxes, sure);
    ClosingDurable(CopyMailboxes(l, c, src, 0, script.mailboxes).s, src, script, sure);
  }

  lemma EpilogueDurable(r: LoopResult, src: Source, script: Script, sure: bool)
    requires Durable(r.s, src, sure)
    ensures Durable(Epilogue(r, script).s, src, sure)
  {
    FlushesDurable(r.s, script.workerFlush, src, sure);
    FlushesDurable(r.s, script.workerItems, src, sure);
    FlushesDurable(FlushItems(r.s, script.workerItems).s, script.workerFlush, src, sure);
  }

  lemma LoadedDurable(s: State, src: Source, sure: bool)
    requires AllDelivered(s, src)
    ensures Durable(Loaded(s), src, sure)
  {
    forall f, x | f in s.persisted.foldersDone && x in Added(src.entries(f)) ensures Noted(Loaded(s), x, sure) {
      assert FolderDelivered(s, src, f);
      assert ImportedId(s, x) == ImportedId(Loaded(s), x);
    }
  }

  /** After a handling, what the persisted checkpoint calls done was imported, reported or at least logged. */
  lemma HandledDurable(s: State, c: Settings, src: Source, script: Script, sure: bool)
    requires AllDelivered(s, src) && WholeFolders(script.mailboxes) && Answered(src, script.mailboxes)
    requires sure ==> c.isDelta || c.flushSize <= 1
    ensures Durable(Handled(s, c, src, script).s, src, sure)
  {
    LoadedDurable(s, src, sure);
    RunDurable(s, c, src, script, sure);
    EpilogueDurable(Run(Loaded(s), c, src, script), src, script, sure);
  }

  // ----- the records a handling leaves unsent -----

  /** The records logged and not delivered: what was sent is what was logged first. */
  function Unsent(s: State, t: State): seq<Record>
    requires SentFirst(t, Loaded(s))
  {
    t.logged[|t.sent| - |s.sent|..]
  }

  lemma HandledSentFirst(s: State, c: Settings, src: Source, script: Script)
    ensures SentFirst(Handled(s, c, src, script).s, Loaded(s))
  {
    HandledBalanced(s, c, src, script);
    BalancedSentFirst(Handled(s, c, src, script).s, Loaded(s));
  }

  /** However a handling ends, its records were sent, dropped by a send without effect, or wait in the buffer. */
  lemma HandledBalanced(s: State, c: Settings, src: Source, script: Script)
    ensures Balanced(Handled(s, c, src, script).s, Loaded(s))
  {
    var r := Run(Loaded(s), c, src, script);
    RunSound(s, c, src, script);
    if r.exit.Raised? && r.exit.exn.Graph? {
      FlushItemsSound(r.s, Loaded(s), script.workerItems);
    }
  }

  lemma UnsentIsWaiting(s: State, t: State)
    requires Balanced(t, Loaded(s)) && SentFirst(t, Loaded(s))
    ensures Unsent(s, t) == t.dropped + t.buffer
  {
    assert (t.sent + (t.dropped + t.buffer))[|t.sent|..] == t.dropped + t.buffer;
    assert (s.sent + t.logged)[|t.sent|..] == t.logged[|t.sent| - |s.sent|..];
  }

  /**
   * Which records stay unsent, for every way a run can end: none after COMPLETED; the buffer after a stop
   * between folders or mailboxes and after a throttle requeue; the buffer after a Graph error whose item
   * flush did not take effect, and none if it did; and after a kill or an exit through the last resort
   * the buffer, or the batch of the send that ended the run without taking effect.
   */
  lemma UnsentIs(s: State, c: Settings, src: Source, script: Script)
    ensures SentFirst(Handled(s, c, src, script).s, Loaded(s))
    ensures
      var r := Run(Loaded(s), c, src, script);
      Unsent(s, Handled(s, c, src, script).s) ==
        if ReturnsCompleted(r) then []
        else if r.exit.Raised? && r.exit.exn.Graph? && TookEffect(script.workerItems) then []
        else if r.s.dropped != [] then r.s.dropped else r.s.buffer
    ensures
      var r := Run(Loaded(s), c, src, script);
      r.s.dropped != [] ==> r.s.buffer == [] && r.exit in {Killed, Raised(ControlPlane), Raised(Other)}
  {
    var r := Run(Loaded(s), c, src, script);
    RunSound(s, c, src, script);
    HandledBalanced(s, c, src, script);
    HandledSentFirst(s, c, src, script);
    UnsentIsWaiting(s, Handled(s, c, src, script).s);
  }

  // ----- one setting decides -----

  /**
   * The folders called done are dealt with; no stop comes inside a folder, and exports answer with one entry
   * for each id.
   */
  ghost predicate Begun(s: State, src: Source, script: Script) {
    AllDelivered(s, src) && WholeFolders(script.mailboxes) && Answered(src, script.mailboxes)
  }

  /** Whatever a handling meets but a stop inside a folder, folders that were dealt with stay so. */
  ghost predicate Lossless(c: Settings) {
    forall s, src, script | Begun(s, src, script) ::
      AllDelivered(Handled(s, c, src, script).s, src)
  }

  /**
   * No crash, failed send, error or stop between folders can lose an item of a folder persisted as done
   * exactly if the item log is flushed record by record; delta passes mark no folders.
   */
  lemma LosslessIff(c: Settings)
    ensures Lossless(c) <==> c.isDelta || c.flushSize <= 1
  {
    if c.isDelta || c.flushSize <= 1 {
      forall s, src, script | Begun(s, src, script)
        ensures AllDelivered(Handled(s, c, src, script).s, src)
      {
        FlushedOneByOne(s, c, src, script);
      }
    } else {
      var src, first, _ := StopCounterexample(c);
      assert !FolderDelivered(Handled(FRESH, c, src, first).s, src, 7);
      assert Begun(FRESH, src, first);
    }
  }

  lemma FlushedOneByOne(s: State, c: Settings, src: Source, script: Script)
    requires c.isDelta || c.flushSize <= 1
    requires AllDelivered(s, src) && WholeFolders(script.mailboxes) && Answered(src, script.mailboxes)
    ensures AllDelivered(Handled(s, c, src, script).s, src)
  {
    var t := Handled(s, c, src, script).s;
    HandledDurable(s, c, src, script, true);
    forall f, x | f in t.persisted.foldersDone && x in Added(src.entries(f)) ensures Delivered(t, x) {
      assert FolderNoted(t, src, f, true);
      assert Noted(t, x, true);
    }
  }

  // ----- what a handling loses, for any flush size -----

  /** The item of a record, of a folder the persisted checkpoint calls done, was neither imported nor reported. */
  predicate Lost(t: State, src: Source, r: Record) {
    && r.item.Some? && !Delivered(t, r.item.value)
    && exists f :: f in t.persisted.foldersDone && r.item.value in Added(src.entries(f))
  }

  /** Every record left unsent is of a folder still to be migrated again, or its item is dealt with anyway. */
  predicate LosesNothing(s: State, c: Settings, src: Source, script: Script) {
    var t := Handled(s, c, src, script).s;
    SentFirst(t, Loaded(s)) && forall r | r in Unsent(s, t) :: !Lost(t, src, r)
  }

  lemma SentIsReported(s: State, t: State, i: nat)
    requires SentFirst(t, Loaded(s)) && i < |t.sent| - |s.sent| && t.logged[i].item.Some?
    ensures ReportedIn(t.sent, t.logged[i].item.value)
  {
    assert t.sent[|s.sent| + i] == t.logged[i];
  }

  lemma NotedDelivered(s: State, t: State, src: Source, f: Id, x: Id)
    requires SentFirst(t, Loaded(s)) && Noted(t, x, false) && f in t.persisted.foldersDone && x in Added(src.entries(f))
    requires forall r | r in Unsent(s, t) :: !Lost(t, src, r)
    ensures Delivered(t, x)
  {
    if !Delivered(t, x) {
      var i :| 0 <= i < |t.logged| && t.logged[i].item == Some(x);
      if i < |t.sent| - |s.sent| {
        SentIsReported(s, t, i);
      } else {
        assert Unsent(s, t)[i - (|t.sent| - |s.sent|)] == t.logged[i];
        assert Lost(t, src, t.logged[i]);
      }
    }
  }

  /**
   * From a state in which every item of every persisted done folder is imported or reported, a handling
   * in which no stop is seen inside a folder leads to such a state if and only if it loses no unsent
   * record of a folder it persisted as done.
   */
  lemma HandledDeliversIff(s: State, c: Settings, src: Source, script: Script)
    requires AllDelivered(s, src) && WholeFolders(script.mailboxes) && Answered(src, script.mailboxes)
    ensures AllDelivered(Handled(s, c, src, script).s, src) <==> LosesNothing(s, c, src, script)
  {
    var t := Handled(s, c, src, script).s;
    HandledDurable(s, c, src, script, false);
    HandledSentFirst(s, c, src, script);
    if LosesNothing(s, c, src, script) {
      forall f, x | f in t.persisted.foldersDone && x in Added(src.entries(f)) ensures Delivered(t, x) {
        assert FolderNoted(t, src, f, false);
        NotedDelivered(s, t, src, f, x);
      }
    }
    if AllDelivered(t, src) {
      forall r, f |
        r in Unsent(s, t) && r.item.Some? && f in t.persisted.foldersDone && r.item.value in Added(src.entries(f))
        ensures Delivered(t, r.item.value)
      {
        assert FolderDelivered(t, src, f);
      }
    }
  }

  // ----- chains -----

  /** The state after handling the dispatches of one full pass again and again, however each ended. */
  function Chain(s: State, c: Settings, src: Source, scripts: seq<Script>): State {
    if scripts == [] then s
    else Handled(Chain(s, c, src, scripts[..|scripts| - 1]), c, src, scripts[|scripts| - 1]).s
  }

  predicate DeliveredThroughout(s: State, c: Settings, src: Source, scripts: seq<Script>) {
    AllDelivered(Chain(s, c, src, scripts), src) &&
    (scripts == [] || DeliveredThroughout(s, c, src, scripts[..|scripts| - 1]))
  }

  predicate LosesNothingThroughout(s: State, c: Settings, src: Source, scripts: seq<Script>) {
    scripts == [] ||
    (&& LosesNothingThroughout(s, c, src, scripts[..|scripts| - 1])
     && LosesNothing(Chain(s, c, src, scripts[..|scripts| - 1]), c, src, scripts[|scripts| - 1]))
  }

  /** Over a chain of handlings everything done stays dealt with if and only if none of them loses a record. */
  lemma {:induction false} ChainDeliversIff(s: State, c: Settings, src: Source, scripts: seq<Script>)
    requires AllDelivered(s, src)
    requires forall r | r in scripts :: WholeFolders(r.mailboxes) && Answered(src, r.mailboxes)
    ensures DeliveredThroughout(s, c, src, scripts) <==> LosesNothingThroughout(s, c, src, scripts)
  {
    if scripts != [] {
      var init, last := scripts[..|scripts| - 1], scripts[|scripts| - 1];
      assert last in scripts && forall r | r in init :: r in scripts;
      ChainDeliversIff(s, c, src, init);
      if DeliveredThroughout(s, c, src, init) {
        HandledDeliversIff(Chain(s, c, src, init), c, src, last);
      }
    }
  }

  // ----- a completed full pass has marked every folder -----

  lemma {:induction false} DueFoldersMarks(c: Settings, src: Source, folders: seq<Id>, i: nat, done: seq<Id>, f: Id)
    requires i <= |folders| && !c.isDelta && (f in done || f in folders[i..])
    ensures f in DueFolders(c, src, folders, i, done).done
    decreases |folders| - i
  {
    if i < |folders| {
      assert folders[i..] == [folders[i]] + folders[i + 1..];
      DueFoldersMarks(c, src, folders, i + 1, Marked(c, folders[i], done), f);
    }
  }

  /** The folder is done, or in a matched mailbox from position `i` on. */
  predicate Ahead(src: Source, i: nat, done: seq<Id>, f: Id) {
    f in done || exists j :: i <= j < |src.mailboxes| && src.mailboxes[j].matched && f in src.mailboxes[j].folders
  }

  lemma {:induction false} DueMailboxesMarks(c: Settings, src: Source, i: nat, done: seq<Id>, f: Id)
    requires i <= |src.mailboxes| && !c.isDelta && Ahead(src, i, done, f)
    ensures f in DueMailboxes(c, src, i, done).done
    decreases |src.mailboxes| - i
  {
    if i < |src.mailboxes| {
      if src.mailboxes[i].matched {
        var folders := src.mailboxes[i].folders;
        if f in done || f in folders {
          assert folders[0..] == folders;
          DueFoldersMarks(c, src, folders, 0, done, f);
        }
        DueMailboxesMarks(c, src, i + 1, DueFolders(c, src, folders, 0, done).done, f);
      } else {
        DueMailboxesMarks(c, src, i + 1, done, f);
      }
    }
  }

  /** Without a stop, no folder is cut short either. */
  lemma UnstoppedIsWhole(script: nat -> MailboxScript)
    requires Unstopped(script)
    ensures WholeFolders(script)
  {
    forall i: nat, j: nat ensures ChunksUnstopped(script(i).folders(j).chunks) {
      assert FoldersUnstopped(script(i).folders);
    }
  }

  /** From done folders that are dealt with, an unstopped full pass that returns COMPLETED deals with every item. */
  lemma ResumedRun(u: State, c: Settings, src: Source, last: Script, f: Id, x: Id)
    requires !c.isDelta && AllDelivered(u, src)
    requires Unstopped(last.mailboxes) && Answered(src, last.mailboxes)
    requires ReturnsCompleted(Run(Loaded(u), c, src, last))
    requires Ahead(src, 0, [], f) && x in Added(src.entries(f))
    ensures Delivered(Run(Loaded(u), c, src, last).s, x)
  {
    LoadedDurable(u, src, false);
    UnstoppedIsWhole(last.mailboxes);
    RunDurable(u, c, src, last, false);
    var t := Run(Loaded(u), c, src, last).s;
    UnstoppedRunAccounts(u, c, src, last);
    DueMailboxesMarks(c, src, 0, u.persisted.foldersDone, f);
    assert FolderNoted(t, src, f, false);
    AllSent(u, t, x);
  }

  lemma {:induction false} ChainDelivers(s: State, c: Settings, src: Source, scripts: seq<Script>)
    requires AllDelivered(s, src) && (c.isDelta || c.flushSize <= 1)
    requires forall r | r in scripts :: WholeFolders(r.mailboxes) && Answered(src, r.mailboxes)
    ensures AllDelivered(Chain(s, c, src, scripts), src)
  {
    if scripts != [] {
      var init, last := scripts[..|scripts| - 1], scripts[|scripts| - 1];
      assert last in scripts && forall r | r in init :: r in scripts;
      ChainDelivers(s, c, src, init);
      FlushedOneByOne(Chain(s, c, src, init), c, src, last);
    }
  }

  /**
   * A full pass begun anew and handled again and again, with no stop inside a folder; the last handling
   * sees no stop and returns COMPLETED, and x is an item of a folder of a matched mailbox.
   */
  ghost predicate Resumed(s: State, c: Settings, src: Source, scripts: seq<Script>, last: Script, f: Id, x: Id) {
    && s.persisted.foldersDone == []
    && (forall r | r in scripts :: WholeFolders(r.mailboxes) && Answered(src, r.mailboxes))
    && Unstopped(last.mailboxes) && Answered(src, last.mailboxes)
    && ReturnsCompleted(Run(Loaded(Chain(s, c, src, scripts)), c, src, last))
    && Ahead(src, 0, [], f) && x in Added(src.entries(f))
  }

  /**
   * However the earlier handlings ended - crash, failed send, throttle, error, a stop between folders -
   * with a flush size of one every item is in the end imported or its record delivered.
   */
  lemma ResumeCompleteness(s: State, c: Settings, src: Source, scripts: seq<Script>, last: Script, f: Id, x: Id)
    requires !c.isDelta && c.flushSize <= 1 && Resumed(s, c, src, scripts, last, f, x)
    ensures Delivered(Run(Loaded(Chain(s, c, src, scripts)), c, src, last).s, x)
  {
    ChainDelivers(s, c, src, scripts);
    ResumedRun(Chain(s, c, src, scripts), c, src, last, f, x);
  }

  ghost predicate ResumesCompletely(c: Settings) {
    forall s, src, scripts, last, f, x | Resumed(s, c, src, scripts, last, f, x) ::
      Delivered(Run(Loaded(Chain(s, c, src, scripts)), c, src, last).s, x)
  }

  /** And with no larger one: some pass then completes with an item neither imported nor reported. */
  lemma ResumeCompletenessIff(c: Settings)
    requires !c.isDelta
    ensures ResumesCompletely(c) <==> c.flushSize <= 1
  {
    if c.flushSize <= 1 {
      forall s, src, scripts, last, f, x | Resumed(s, c, src, scripts, last, f, x)
        ensures Delivered(Run(Loaded(Chain(s, c, src, scripts)), c, src, last).s, x)
      {
        ResumeCompleteness(s, c, src, scripts, last, f, x);
      }
    } else {
      var src, first, last := StopCounterexample(c);
      OneLink(FRESH, c, src, [first]);
      assert Resumed(FRESH, c, src, [first], last, 7, 1);
    }
  }

  lemma OneLink(s: State, c: Settings, src: Source, scripts: seq<Script>)
    requires |scripts| == 1
    ensures Chain(s, c, src, scripts) == Handled(s, c, src, scripts[0]).s
  {
    assert scripts[..0] == [];
  }

  // ----- what a stop or a crash can lose -----

  /** A mailbox with one folder of one item, and an empty mailbox after it. */
  function OneItem(): Source {
    Source([Mailbox(true, [7]), Mailbox(true, [])], (f: Id) => [Entry(1, false)])
  }

  const QUIET := Beat(false, Ok, Ok, false, Ok)

  /** Its export answers with an error entry; `stop` is seen before the chunk. */
  function OneItemFolder(stop: bool, beat: Beat): FolderScript {
    var chunk := ChunkScript(stop, Ok, [ExportEntry(Some(1), true, 0)], (j: nat) => (k: nat) => Succeeded, QUIET);
    FolderScript(false, 70, Ok, Ok, None, (k: nat) => chunk, beat)
  }

  /** `beat` is the heartbeat after the folder, and `later` is a stop seen between the two mailboxes. */
  function OneItemRun(stop: bool, beat: Beat, later: bool): Script {
    var folder := OneItemFolder(stop, beat);
    Script(Ok, Ok, (i: nat) => MailboxScript(later && i == 1, Ok, None, (j: nat) => folder), Ok, Ok, Ok, Ok, Ok)
  }

  const FRESH := State(EMPTY, [], [], EMPTY, 0, 0, 0, [], false, [], [])

  lemma OneItemChunk()
    ensures Chunks(Added([Entry(1, false)]), MAX_EXPORT_BATCH) == [[1]]
  {
    assert Added([Entry(1, false)]) == [1];
    assert [1][..1] == [1];
  }

  /** Unless it is stopped, such a run is as the theorems above ask. */
  lemma OneItemAnswered(stop: bool, beat: Beat, later: bool)
    requires !stop && !beat.cancelSeen
    ensures
      var script := OneItemRun(stop, beat, later).mailboxes;
      WholeFolders(script) && Answered(OneItem(), script) && (!later ==> Unstopped(script))
  {
    var script := OneItemRun(stop, beat, later).mailboxes;
    OneItemChunk();
    assert EntryIds([ExportEntry(Some(1), true, 0)]) == [Some(1)] == Somes([1]);
    forall i: nat, j: nat ensures ChunksUnstopped(script(i).folders(j).chunks) {
    }
    forall i: nat | i < 2 ensures FoldersAnswered(OneItem(), OneItem().mailboxes[i].folders, script(i).folders) {
    }
  }

  /** The mailbox loop is the one folder, and whether the second mailbox is still looked at. */
  lemma OneItemLoop(s: State, c: Settings, stop: bool, beat: Beat, later: bool)
    requires !s.cancelled && !OneFolder(s, c, 7, [Entry(1, false)], OneItemFolder(stop, beat)).s.cancelled
    ensures
      var r := OneFolder(s, c, 7, [Entry(1, false)], OneItemFolder(stop, beat));
      CopyMailboxes(s, c, OneItem(), 0, OneItemRun(stop, beat, later).mailboxes)
        == LoopResult(r.s, r.exit, r.exit == Go && later)
  {
    var script := OneItemRun(stop, beat, later);
    var r := OneFolder(s, c, 7, [Entry(1, false)], OneItemFolder(stop, beat));
    assert CopyFolders(s, c, OneItem(), [7], 0, script.mailboxes(0).folders)
        == if r.exit == Go then LoopResult(r.s, Go, false) else LoopResult(r.s, r.exit, false);
    assert OneMailbox(s, c, OneItem(), [7], script.mailboxes(0)) == r;
    if r.exit == Go && !later {
      assert OneMailbox(r.s, c, OneItem(), [], script.mailboxes(1)) == Result(r.s, Go);
    }
  }

  /** A later pass finds the folder done and returns COMPLETED at once. */
  lemma SecondRunSkips(s: State, c: Settings)
    requires !c.isDelta && s.persisted.foldersDone == [7]
    ensures
      var run := OneItemRun(false, QUIET, false);
      var r := Run(Loaded(s), c, OneItem(), run);
      var h := Handled(s, c, OneItem(), run);
      && ReturnsCompleted(r) && r.s.imports == s.imports && r.s.sent == s.sent
      && h.exit == Go && h.s.imports == s.imports && h.s.sent == s.sent
  {
    OneItemLoop(Loaded(s), c, false, QUIET, false);
  }

  /**
   * A stop request in the middle of a folder, whatever the flush size: the run returns COMPLETED, and so
   * does the next, with the item nowhere.
   */
  lemma StoppedFolderForgotten(c: Settings)
    requires !c.isDelta
    ensures
      var first := OneItemRun(true, QUIET, false);
      var second := OneItemRun(false, QUIET, false);
      var s := Handled(FRESH, c, OneItem(), first).s;
      var t := Handled(s, c, OneItem(), second).s;
      && ReturnsCompleted(Run(Loaded(FRESH), c, OneItem(), first))
      && ReturnsCompleted(Run(Loaded(s), c, OneItem(), second))
      && t.imports == [] && t.sent == []
  {
    OneItemChunk();
    OneItemLoop(Loaded(FRESH), c, true, QUIET, false);
    var s := Handled(FRESH, c, OneItem(), OneItemRun(true, QUIET, false)).s;
    assert s.persisted.foldersDone == [7] && s.imports == [] && s.sent == [];
    SecondRunSkips(s, c);
  }

  /** What a run whose only item fails has in memory when the folder ends. */
  lemma FailedFolder(c: Settings, beat: Beat)
    requires !c.isDelta && c.flushSize >= 2
    ensures
      var f := OneItemFolder(false, beat);
      var r := FolderItems(EnsureFolder(Loaded(FRESH), 7, f).s, c, 7, [Entry(1, false)], 70, f);
      && r.exit == Go && r.s.buffer == r.s.logged == [Record(Some(1), ItemSkipped)]
      && r.s.imports == [] && r.s.sent == []
      && !r.s.cancelled && r.s.cp.foldersDone == []
  {
    OneItemChunk();
    FailedItem(EnsureFolder(Loaded(FRESH), 7, OneItemFolder(false, beat)).s, c, beat);
  }

  lemma FailedItem(s: State, c: Settings, beat: Beat)
    requires s.buffer == [] && s.logged == [] && !s.cancelled && c.flushSize >= 2
    ensures
      var f := OneItemFolder(false, beat);
      CopyChunks(s, c, [[1]], 0, 70, f.chunks)
        == Result(Logging(s, [Record(Some(1), ItemSkipped)])
                    .(cp := s.cp.(progress := s.progress, bytes := s.bytes)), Go)
  {
    var f := OneItemFolder(false, beat);
    var ch := f.chunks(0);
    assert ch.entries[1..] == [];
    assert [] + [Some(1)] == [Some(1)];
    assert SplitFrom(ch.entries, Split([], [])) == Some(Split([], [Some(1)]));
    assert SkippedRecords([Some(1)]) == [Record(Some(1), ItemSkipped)];
    var t := Logging(s, [Record(Some(1), ItemSkipped)]);
    assert OneChunk(s, c, [1], 70, ch) == Result(t, Go);
  }

  /**
   * A crash after the checkpoint was flushed and before the buffered records were: the folder counts as
   * done, and the item that failed is neither imported nor reported, although the next run completes.
   */
  lemma CrashLosesRecords(c: Settings)
    requires !c.isDelta && c.flushSize >= 2
    ensures
      var crash := Beat(true, Ok, Ok, false, Kill(false));
      var first := OneItemRun(false, crash, false);
      var second := OneItemRun(false, QUIET, false);
      var h := Handled(FRESH, c, OneItem(), first);
      var t := Handled(h.s, c, OneItem(), second).s;
      && h.exit == Killed && h.s.logged == [Record(Some(1), ItemSkipped)]
      && ReturnsCompleted(Run(Loaded(h.s), c, OneItem(), second))
      && t.imports == [] && t.sent == []
  {
    var crash := Beat(true, Ok, Ok, false, Kill(false));
    FailedFolder(c, crash);
    OneItemLoop(Loaded(FRESH), c, false, crash, false);
    SecondRunSkips(Handled(FRESH, c, OneItem(), OneItemRun(false, crash, false)).s, c);
  }

  /**
   * A stop seen between two mailboxes, with every request answered: the run returns a running status
   * without sending its records, and the worker persists the folder as done.
   */
  lemma StopLosesRecords(c: Settings)
    requires !c.isDelta && c.flushSize >= 2
    ensures
      var first := OneItemRun(false, QUIET, true);
      var second := OneItemRun(false, QUIET, false);
      var r := Run(Loaded(FRESH), c, OneItem(), first);
      var s := Handled(FRESH, c, OneItem(), first).s;
      var t := Run(Loaded(s), c, OneItem(), second);
      && r.exit == Go && r.stopped && s.logged == [Record(Some(1), ItemSkipped)]
      && s.persisted.foldersDone == [7] && s.imports == [] && s.sent == []
      && ReturnsCompleted(t) && t.s.imports == [] && t.s.sent == []
  {
    FailedFolder(c, QUIET);
    OneItemLoop(Loaded(FRESH), c, false, QUIET, true);
    SecondRunSkips(Handled(FRESH, c, OneItem(), OneItemRun(false, QUIET, true)).s, c);
  }

  lemma StopCounterexample(c: Settings) returns (src: Source, first: Script, last: Script)
    requires !c.isDelta && c.flushSize >= 2
    ensures WholeFolders(first.mailboxes) && Answered(src, first.mailboxes)
    ensures Unstopped(last.mailboxes) && Answered(src, last.mailboxes)
    ensures Ahead(src, 0, [], 7) && 1 in Added(src.entries(7))
    ensures
      var s := Handled(FRESH, c, src, first).s;
      var r := Run(Loaded(s), c, src, last);
      s.persisted.foldersDone == [7] && !Delivered(s, 1) && ReturnsCompleted(r) && !Delivered(r.s, 1)
  {
    src, first, last := OneItem(), OneItemRun(false, QUIET, true), OneItemRun(false, QUIET, false);
    StopLosesRecords(c);
    OneItemAnswered(false, QUIET, true);
    OneItemAnswered(false, QUIET, false);
    assert 7 in src.mailboxes[0].folders && Added([Entry(1, false)])[0] == 1;
  }
}
