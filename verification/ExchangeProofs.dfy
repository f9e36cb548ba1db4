/**
 * What an Exchange run accounts for.
 *
 * `Flow` follows a run looking only at where it stops and what the export responses hold.  A run that
 * returns has imported or logged exactly those entries, so it accounts for the whole source exactly
 * when they are the enumerated items.
 */
module ExchangeProofs {
  import opened Wrappers
  import opened Replies
  import opened Exchange

  // ----- chunks -----

  function Concat<T>(xss: seq<seq<T>>): seq<T> {
    if xss == [] then [] else xss[0] + Concat(xss[1..])
  }

  /** The chunks are the ids in order, all full but perhaps the last, which is not empty. */
  lemma {:induction false} ChunksPartition<T>(xs: seq<T>, size: nat)
    requires size > 0
    ensures
      var cs := Chunks(xs, size);
      && Concat(cs) == xs
      && (forall k | 0 <= k < |cs| :: 0 < |cs[k]| <= size && (k + 1 < |cs| ==> |cs[k]| == size))
  {
    if xs != [] {
      var n := if |xs| < size then |xs| else size;
      ChunksPartition(xs[n..], size);
      var cs := Chunks(xs, size);
      assert cs[1..] == Chunks(xs[n..], size);
      assert xs == xs[..n] + xs[n..];
    }
  }

  lemma {:induction false} ChunksFull<T>(xs: seq<T>, size: nat)
    requires size > 0
    ensures forall k | 0 <= k < |Chunks(xs, size)| - 1 :: |Chunks(xs, size)[k]| == size
  {
    if |xs| > size {
      ChunksFull(xs[size..], size);
      forall k | 0 <= k < |Chunks(xs, size)| - 1
        ensures |Chunks(xs, size)[k]| == size
      {
        assert Chunks(xs, size)[1..] == Chunks(xs[size..], size);
        if k > 0 {
          assert Chunks(xs, size)[k] == Chunks(xs[size..], size)[k - 1];
        }
      }
    } else if xs != [] {
      assert xs[|xs|..] == [];
    }
  }

  /**
   * The ids in their order, cut as asked for but never longer than twenty, and only the last one shorter.
   * A size of zero is an error, and a negative one loses every id.
   */
  lemma ChunkItemIdsPartition<T>(ids: seq<T>, size: int)
    ensures ChunkItemIds(ids, size).None? <==> size == 0
    ensures size < 0 ==> ChunkItemIds(ids, size) == Some([])
    ensures
      size > 0 ==>
      var cs := ChunkItemIds(ids, size).value;
      && Concat(cs) == ids
      && (forall k | 0 <= k < |cs| :: 0 < |cs[k]| <= 20 && |cs[k]| <= size)
      && (forall k | 0 <= k < |cs| - 1 :: |cs[k]| == 20 || |cs[k]| == size)
  {
    if size > 0 {
      ChunksPartition(ids, if size < MAX_EXPORT_BATCH then size else MAX_EXPORT_BATCH);
      ChunksFull(ids, if size < MAX_EXPORT_BATCH then size else MAX_EXPORT_BATCH);
    }
  }

  // ----- the tally of a state -----

  function Somes(ids: seq<Id>): seq<Option<Id>> {
    seq(|ids|, i requires 0 <= i < |ids| => Some(ids[i]))
  }

  function EntryIds(entries: seq<ExportEntry>): seq<Option<Id>> {
    seq(|entries|, i requires 0 <= i < |entries| => entries[i].item)
  }

  function ExportedIds(items: seq<Exported>): seq<Option<Id>> {
    seq(|items|, i requires 0 <= i < |items| => Some(items[i].item))
  }

  function ImportIds(imports: seq<Import>): seq<Option<Id>> {
    seq(|imports|, i requires 0 <= i < |imports| => Some(imports[i].item))
  }

  function RecordIds(records: seq<Record>): seq<Option<Id>> {
    seq(|records|, i requires 0 <= i < |records| => records[i].item)
  }

  /** Everything imported so far, and everything logged in this run. */
  function Tally(s: State): multiset<Option<Id>> {
    multiset(ImportIds(s.imports)) + multiset(RecordIds(s.logged))
  }

  lemma TallySize(s: State)
    ensures |Tally(s)| == |s.imports| + |s.logged|
  {
    assert |multiset(ImportIds(s.imports))| == |ImportIds(s.imports)|;
    assert |multiset(RecordIds(s.logged))| == |RecordIds(s.logged)|;
  }

  lemma TallyLogging(s: State, records: seq<Record>)
    ensures Tally(Logging(s, records)) == Tally(s) + multiset(RecordIds(records))
  {
    assert RecordIds(s.logged + records) == RecordIds(s.logged) + RecordIds(records);
  }

  lemma TallyImport(s: State, i: Import)
    ensures Tally(s.(imports := s.imports + [i])) == Tally(s) + multiset{Some(i.item)}
  {
    assert ImportIds(s.imports + [i]) == ImportIds(s.imports) + [Some(i.item)];
  }

  lemma TallySame(s: State, t: State)
    requires s.imports == t.imports && s.logged == t.logged
    ensures Tally(s) == Tally(t)
  {
  }

  /** Splitting a response loses no entry and invents none. */
  lemma {:induction false} SplitKeeps(entries: seq<ExportEntry>, acc: Split)
    requires SplitFrom(entries, acc).Some?
    ensures
      var r := SplitFrom(entries, acc).value;
      multiset(r.errors) + multiset(ExportedIds(r.exported))
        == multiset(acc.errors) + multiset(ExportedIds(acc.exported)) + multiset(EntryIds(entries))
  {
    if entries == [] {
    } else {
      var e := entries[0];
      assert EntryIds(entries) == [e.item] + EntryIds(entries[1..]);
      if e.failed || e.size == 0 {
        SplitKeeps(entries[1..], acc.(errors := acc.errors + [e.item]));
      } else {
        var x := Exported(e.item.value, e.size);
        assert ExportedIds(acc.exported + [x]) == ExportedIds(acc.exported) + [e.item];
        SplitKeeps(entries[1..], acc.(exported := acc.exported + [x]));
      }
    }
  }

  // ----- one chunk -----

  lemma {:induction false} ImportOneTally(s: State, c: Settings, item: Id, dst: Id, attempts: nat -> Attempt, k: nat,
                                          auth: bool)
    ensures
      var r := ImportOne(s, c, item, dst, attempts, k, auth);
      if r.exit == Go then Tally(r.s) == Tally(s) + multiset{Some(item)} else r.s == s
    decreases c.maxRetries + 1 - k
  {
    if k <= c.maxRetries {
      TallyImport(s, Import(item, dst, c.isDelta));
      if attempts(k).Transient? {
        ImportOneTally(s, c, item, dst, attempts, k + 1, attempts(k).auth);
      }
    } else {
      TallyLogging(s, [Record(Some(item), ItemFailed)]);
      assert RecordIds([Record(Some(item), ItemFailed)]) == [Some(item)];
    }
  }

  lemma ImportThenCreditTally(s: State, c: Settings, item: Exported, dst: Id, attempts: nat -> Attempt)
    ensures
      var r := ImportThenCredit(s, c, item, dst, attempts);
      if r.exit == Go then Tally(r.s) == Tally(s) + multiset{Some(item.item)} else Tally(r.s) == Tally(s)
  {
    var r := ImportOne(s, c, item.item, dst, attempts, 0, false);
    ImportOneTally(s, c, item.item, dst, attempts, 0, false);
    TallySame(r.s, ImportThenCredit(s, c, item, dst, attempts).s);
  }

  lemma ExportedTail(items: seq<Exported>, j: nat)
    requires j < |items|
    ensures multiset(ExportedIds(items[j..])) == multiset{Some(items[j].item)} + multiset(ExportedIds(items[j + 1..]))
  {
    assert ExportedIds(items[j..]) == [Some(items[j].item)] + ExportedIds(items[j + 1..]);
  }

  lemma {:induction false} ImportAllTally(s: State, c: Settings, items: seq<Exported>, j: nat, dst: Id,
                                          imports: nat -> nat -> Attempt)
    requires j <= |items|
    ensures
      var r := ImportAll(s, c, items, j, dst, imports);
      && Tally(s) <= Tally(r.s)
      && (r.exit == Go ==> Tally(r.s) == Tally(s) + multiset(ExportedIds(items[j..])))
    decreases |items| - j
  {
    if j == |items| {
      assert ExportedIds(items[j..]) == [];
    } else {
      var r := ImportThenCredit(s, c, items[j], dst, imports(j));
      ImportThenCreditTally(s, c, items[j], dst, imports(j));
      if r.exit == Go {
        ImportAllTally(r.s, c, items, j + 1, dst, imports);
        ExportedTail(items, j);
      }
    }
  }

  lemma SplitAll(entries: seq<ExportEntry>)
    requires SplitFrom(entries, Split([], [])).Some?
    ensures
      var r := SplitFrom(entries, Split([], [])).value;
      multiset(r.errors) + multiset(ExportedIds(r.exported)) == multiset(EntryIds(entries))
  {
    var none := Split([], []);
    SplitKeeps(entries, none);
    assert ExportedIds(none.exported) == [];
    assert multiset(none.errors) + multiset(ExportedIds(none.exported)) == multiset{};
  }

  lemma OneChunkTally(s: State, c: Settings, ids: seq<Id>, dst: Id, ch: ChunkScript)
    requires ids != []
    ensures
      var r := OneChunk(s, c, ids, dst, ch);
      && Tally(s) <= Tally(r.s)
      && (r.exit == Go ==> Tally(r.s) == Tally(s) + multiset(EntryIds(ch.entries)))
  {
    var x := Exports(ids, ch);
    if x.exit == Go {
      SplitAll(ch.entries);
      SplitTally(s, c, x.split, dst, ch.imports);
    }
  }

  lemma SplitTally(s: State, c: Settings, split: Split, dst: Id, imports: nat -> nat -> Attempt)
    ensures
      var r := ImportAll(Logging(s, SkippedRecords(split.errors)), c, split.exported, 0, dst, imports);
      && Tally(s) <= Tally(r.s)
      && (r.exit == Go ==> Tally(r.s) == Tally(s) + (multiset(split.errors) + multiset(ExportedIds(split.exported))))
  {
    TallyLogging(s, SkippedRecords(split.errors));
    assert RecordIds(SkippedRecords(split.errors)) == split.errors;
    ImportAllTally(Logging(s, SkippedRecords(split.errors)), c, split.exported, 0, dst, imports);
    assert split.exported[0..] == split.exported;
  }

  // ----- what the steps leave alone -----

  lemma {:induction false} ImportAllKeeps(s: State, c: Settings, items: seq<Exported>, j: nat, dst: Id,
                                          imports: nat -> nat -> Attempt)
    requires j <= |items|
    ensures
      var t := ImportAll(s, c, items, j, dst, imports).s;
      t.cancelled == s.cancelled && t.cp == s.cp && t.persisted == s.persisted && t.sent == s.sent
    decreases |items| - j
  {
    if j < |items| {
      var r := ImportThenCredit(s, c, items[j], dst, imports(j));
      ImportOneKeeps(s, c, items[j].item, dst, imports(j), 0, false);
      if r.exit == Go {
        ImportAllKeeps(r.s, c, items, j + 1, dst, imports);
      }
    }
  }

  lemma {:induction false} ImportOneKeeps(s: State, c: Settings, item: Id, dst: Id, attempts: nat -> Attempt, k: nat,
                                          auth: bool)
    ensures
      var t := ImportOne(s, c, item, dst, attempts, k, auth).s;
      t.cancelled == s.cancelled && t.cp == s.cp && t.persisted == s.persisted && t.sent == s.sent
    decreases c.maxRetries + 1 - k
  {
    if k <= c.maxRetries && attempts(k).Transient? {
      ImportOneKeeps(s, c, item, dst, attempts, k + 1, attempts(k).auth);
    }
  }

  lemma OneChunkKeeps(s: State, c: Settings, ids: seq<Id>, dst: Id, ch: ChunkScript)
    ensures
      var t := OneChunk(s, c, ids, dst, ch).s;
      t.cancelled == s.cancelled && t.cp == s.cp && t.persisted == s.persisted && t.sent == s.sent
  {
    var x := Exports(ids, ch);
    if x.exit == Go {
      ImportAllKeeps(Logging(s, SkippedRecords(x.split.errors)), c, x.split.exported, 0, dst, ch.imports);
    }
  }

  lemma HeartbeatFrame(s: State, b: Beat, flushSize: nat)
    ensures
      var h := Heartbeat(s, b, flushSize);
      && h.s.imports == s.imports && h.s.logged == s.logged
      && h.s.progress == s.progress && h.s.succeeded == s.succeeded
      && h.s.cp == s.cp.(progress := s.progress, bytes := s.bytes)
      && (h.s.persisted == s.persisted || h.s.persisted == h.s.cp)
      && (h.exit == Go ==> h.s.cancelled == (s.cancelled || b.cancelSeen))
  {
  }

  lemma ChunkThenBeatFrame(s: State, c: Settings, ids: seq<Id>, dst: Id, ch: ChunkScript)
    ensures
      var r := ChunkThenBeat(s, c, ids, dst, ch);
      && r.s.cp == s.cp.(progress := r.s.cp.progress, bytes := r.s.cp.bytes)
      && (r.exit == Go ==> r.s.cancelled == (s.cancelled || ch.beat.cancelSeen))
  {
    OneChunkKeeps(s, c, ids, dst, ch);
    HeartbeatFrame(OneChunk(s, c, ids, dst, ch).s, ch.beat, c.flushSize);
  }

  lemma ChunkThenBeatTally(s: State, c: Settings, ids: seq<Id>, dst: Id, ch: ChunkScript)
    requires ids != []
    ensures
      var r := ChunkThenBeat(s, c, ids, dst, ch);
      r.exit == Go ==> Tally(r.s) == Tally(s) + multiset(EntryIds(ch.entries))
  {
    var r := OneChunk(s, c, ids, dst, ch);
    OneChunkTally(s, c, ids, dst, ch);
    HeartbeatFrame(r.s, ch.beat, c.flushSize);
    TallySame(r.s, Heartbeat(r.s, ch.beat, c.flushSize).s);
  }

  // ----- the flow of a run -----

  datatype Answers = Answers(ids: seq<Option<Id>>, cancelled: bool)

  /** Chunks from `k` on: the ids answered until the run is stopped or cancelled. */
  function ChunkFlow(n: nat, k: nat, script: nat -> ChunkScript, cancelled: bool): Answers
    requires k <= n
    decreases n - k
  {
    if k == n || cancelled || script(k).stop then Answers([], cancelled)
    else
      var rest := ChunkFlow(n, k + 1, script, script(k).beat.cancelSeen);
      Answers(EntryIds(script(k).entries) + rest.ids, rest.cancelled)
  }

  datatype Flow = Flow(ids: seq<Option<Id>>, cancelled: bool, done: seq<Id>, stopped: bool)

  function FolderFlow(c: Settings, folder: Id, entries: seq<Entry>, f: FolderScript, done: seq<Id>,
                      cancelled: bool): Flow {
    if folder in done && !c.isDelta then Flow([], cancelled, done, false)
    else
      var r := ChunkFlow(|Chunks(Added(entries), MAX_EXPORT_BATCH)|, 0, f.chunks, cancelled);
      Flow(r.ids, r.cancelled || f.beat.cancelSeen,
           if c.isDelta || folder in done then done else done + [folder], false)
  }

  function FoldersFlow(c: Settings, src: Source, folders: seq<Id>, i: nat, script: nat -> FolderScript,
                       done: seq<Id>, cancelled: bool): Flow
    requires i <= |folders|
    decreases |folders| - i
  {
    if i == |folders| then Flow([], cancelled, done, false)
    else if cancelled || script(i).stop then Flow([], cancelled, done, true)
    else
      var r := FolderFlow(c, folders[i], src.entries(folders[i]), script(i), done, cancelled);
      var rest := FoldersFlow(c, src, folders, i + 1, script, r.done, r.cancelled);
      rest.(ids := r.ids + rest.ids)
  }

  function MailboxesFlow(c: Settings, src: Source, i: nat, script: nat -> MailboxScript, done: seq<Id>,
                         cancelled: bool): Flow
    requires i <= |src.mailboxes|
    decreases |src.mailboxes| - i
  {
    if i == |src.mailboxes| then Flow([], cancelled, done, false)
    else if cancelled || script(i).stop then Flow([], cancelled, done, true)
    else if !src.mailboxes[i].matched then MailboxesFlow(c, src, i + 1, script, done, cancelled)
    else
      var r := FoldersFlow(c, src, src.mailboxes[i].folders, 0, script(i).folders, done, cancelled);
      var rest := MailboxesFlow(c, src, i + 1, script, r.done, r.cancelled);
      rest.(ids := r.ids + rest.ids)
  }

  lemma TallyOn(s: State, t: State, u: State, a: seq<Option<Id>>, b: seq<Option<Id>>)
    requires Tally(t) == Tally(s) + multiset(a) && Tally(u) == Tally(t) + multiset(b)
    ensures Tally(u) == Tally(s) + multiset(a + b)
  {
    assert multiset(a + b) == multiset(a) + multiset(b);
  }

  // ----- the chunks of a folder -----

  lemma {:induction false} CopyChunksFrame(s: State, c: Settings, chunks: seq<seq<Id>>, k: nat, dst: Id,
                                           script: nat -> ChunkScript)
    requires k <= |chunks|
    ensures
      var r := CopyChunks(s, c, chunks, k, dst, script);
      && r.s.cp == s.cp.(progress := r.s.cp.progress, bytes := r.s.cp.bytes)
      && (r.exit == Go ==> r.s.cancelled == ChunkFlow(|chunks|, k, script, s.cancelled).cancelled)
    decreases |chunks| - k
  {
    if k < |chunks| && !s.cancelled && !script(k).stop {
      var r := ChunkThenBeat(s, c, chunks[k], dst, script(k));
      ChunkThenBeatFrame(s, c, chunks[k], dst, script(k));
      if r.exit == Go {
        CopyChunksFrame(r.s, c, chunks, k + 1, dst, script);
      }
    }
  }

  lemma {:induction false} CopyChunksTally(s: State, c: Settings, chunks: seq<seq<Id>>, k: nat, dst: Id,
                                           script: nat -> ChunkScript)
    requires k <= |chunks| && forall j | 0 <= j < |chunks| :: chunks[j] != []
    requires CopyChunks(s, c, chunks, k, dst, script).exit == Go
    ensures
      Tally(CopyChunks(s, c, chunks, k, dst, script).s) ==
      Tally(s) + multiset(ChunkFlow(|chunks|, k, script, s.cancelled).ids)
    decreases |chunks| - k
  {
    if k < |chunks| && !s.cancelled && !script(k).stop {
      var r := ChunkThenBeat(s, c, chunks[k], dst, script(k));
      ChunkThenBeatFrame(s, c, chunks[k], dst, script(k));
      ChunkThenBeatTally(s, c, chunks[k], dst, script(k));
      CopyChunksTally(r.s, c, chunks, k + 1, dst, script);
      TallyOn(s, r.s, CopyChunks(r.s, c, chunks, k + 1, dst, script).s,
              EntryIds(script(k).entries), ChunkFlow(|chunks|, k + 1, script, r.s.cancelled).ids);
    }
  }

  lemma NoEmptyChunk(ids: seq<Id>)
    ensures forall j | 0 <= j < |Chunks(ids, MAX_EXPORT_BATCH)| :: Chunks(ids, MAX_EXPORT_BATCH)[j] != []
  {
    ChunksPartition(ids, MAX_EXPORT_BATCH);
  }

  lemma FolderItemsFrame(s: State, c: Settings, folder: Id, entries: seq<Entry>, dst: Id, f: FolderScript)
    ensures
      var r := FolderItems(s, c, folder, entries, dst, f);
      && r.s.cp.foldersDone == s.cp.foldersDone && r.s.cp.folderMap == s.cp.folderMap
      && (r.exit == Go ==>
            && r.s.cancelled ==
               ChunkFlow(|Chunks(Added(entries), MAX_EXPORT_BATCH)|, 0, f.chunks, s.cancelled).cancelled
            && (f.deltaLink.Some? ==> folder in r.s.cp.itemDeltas && r.s.cp.itemDeltas[folder] == f.deltaLink.value))
  {
    CopyChunksFrame(s, c, Chunks(Added(entries), MAX_EXPORT_BATCH), 0, dst, f.chunks);
  }

  lemma FolderItemsTally(s: State, c: Settings, folder: Id, entries: seq<Entry>, dst: Id, f: FolderScript)
    requires FolderItems(s, c, folder, entries, dst, f).exit == Go
    ensures
      Tally(FolderItems(s, c, folder, entries, dst, f).s)
        == Tally(s) + multiset(ChunkFlow(|Chunks(Added(entries), MAX_EXPORT_BATCH)|, 0, f.chunks, s.cancelled).ids)
  {
    var chunks := Chunks(Added(entries), MAX_EXPORT_BATCH);
    NoEmptyChunk(Added(entries));
    CopyChunksTally(s, c, chunks, 0, dst, f.chunks);
    TallySame(CopyChunks(s, c, chunks, 0, dst, f.chunks).s, FolderItems(s, c, folder, entries, dst, f).s);
  }

  // ----- folders and mailboxes -----

  lemma EnsureFrame(s: State, folder: Id, f: FolderScript)
    ensures
      var e := EnsureFolder(s, folder, f);
      && e.s == s.(cp := s.cp.(folderMap := e.s.cp.folderMap))
      && (forall x | x in s.cp.folderMap :: x in e.s.cp.folderMap && e.s.cp.folderMap[x] == s.cp.folderMap[x])
      && (e.exit == Go ==> folder in e.s.cp.folderMap && e.s.cp.folderMap[folder] == e.dst)
  {
  }

  function Marked(c: Settings, folder: Id, done: seq<Id>): seq<Id> {
    if c.isDelta || folder in done then done else done + [folder]
  }

  /** The end of a folder pass: the mark and the heartbeat. */
  lemma FolderEndFrame(s: State, c: Settings, folder: Id, b: Beat)
    ensures
      var h := Heartbeat(MarkedDone(s, c, folder), b, c.flushSize);
      && h.s.imports == s.imports && h.s.logged == s.logged
      && h.s.cp.foldersDone == Marked(c, folder, s.cp.foldersDone)
      && h.s.cp.folderMap == s.cp.folderMap && h.s.cp.itemDeltas == s.cp.itemDeltas
      && (h.s.persisted == s.persisted || h.s.persisted == h.s.cp)
      && (h.exit == Go ==> h.s.cancelled == (s.cancelled || b.cancelSeen))
  {
    HeartbeatFrame(MarkedDone(s, c, folder), b, c.flushSize);
  }

  lemma OneFolderFrame(s: State, c: Settings, folder: Id, entries: seq<Entry>, f: FolderScript)
    requires OneFolder(s, c, folder, entries, f).exit == Go
    ensures
      var r := OneFolder(s, c, folder, entries, f);
      var fl := FolderFlow(c, folder, entries, f, s.cp.foldersDone, s.cancelled);
      r.s.cancelled == fl.cancelled && r.s.cp.foldersDone == fl.done
  {
    if !(folder in s.cp.foldersDone && !c.isDelta) {
      var e := EnsureFolder(s, folder, f);
      EnsureFrame(s, folder, f);
      FolderItemsFrame(e.s, c, folder, entries, e.dst, f);
      FolderEndFrame(FolderItems(e.s, c, folder, entries, e.dst, f).s, c, folder, f.beat);
    }
  }

  lemma OneFolderTally(s: State, c: Settings, folder: Id, entries: seq<Entry>, f: FolderScript)
    requires OneFolder(s, c, folder, entries, f).exit == Go
    ensures
      Tally(OneFolder(s, c, folder, entries, f).s)
        == Tally(s) + multiset(FolderFlow(c, folder, entries, f, s.cp.foldersDone, s.cancelled).ids)
  {
    if !(folder in s.cp.foldersDone && !c.isDelta) {
      var e := EnsureFolder(s, folder, f);
      EnsureFrame(s, folder, f);
      TallySame(s, e.s);
      var r := FolderItems(e.s, c, folder, entries, e.dst, f);
      FolderItemsTally(e.s, c, folder, entries, e.dst, f);
      FolderEndFrame(r.s, c, folder, f.beat);
      TallySame(r.s, OneFolder(s, c, folder, entries, f).s);
    }
  }

  lemma {:induction false} CopyFoldersFrame(s: State, c: Settings, src: Source, folders: seq<Id>, i: nat,
                                            script: nat -> FolderScript)
    requires i <= |folders| && CopyFolders(s, c, src, folders, i, script).exit == Go
    ensures
      var r := CopyFolders(s, c, src, folders, i, script);
      var fl := FoldersFlow(c, src, folders, i, script, s.cp.foldersDone, s.cancelled);
      r.s.cancelled == fl.cancelled && r.s.cp.foldersDone == fl.done && r.stopped == fl.stopped
    decreases |folders| - i
  {
    if i < |folders| && !s.cancelled && !script(i).stop {
      OneFolderFrame(s, c, folders[i], src.entries(folders[i]), script(i));
      var r := OneFolder(s, c, folders[i], src.entries(folders[i]), script(i));
      CopyFoldersFrame(r.s, c, src, folders, i + 1, script);
    }
  }

  lemma {:induction false} CopyFoldersTally(s: State, c: Settings, src: Source, folders: seq<Id>, i: nat,
                                            script: nat -> FolderScript)
    requires i <= |folders| && CopyFolders(s, c, src, folders, i, script).exit == Go
    ensures
      Tally(CopyFolders(s, c, src, folders, i, script).s)
        == Tally(s) + multiset(FoldersFlow(c, src, folders, i, script, s.cp.foldersDone, s.cancelled).ids)
    decreases |folders| - i
  {
    if i < |folders| && !s.cancelled && !script(i).stop {
      var r := OneFolder(s, c, folders[i], src.entries(folders[i]), script(i));
      OneFolderFrame(s, c, folders[i], src.entries(folders[i]), script(i));
      OneFolderTally(s, c, folders[i], src.entries(folders[i]), script(i));
      CopyFoldersTally(r.s, c, src, folders, i + 1, script);
      TallyOn(s, r.s, CopyFolders(r.s, c, src, folders, i + 1, script).s,
              FolderFlow(c, folders[i], src.entries(folders[i]), script(i), s.cp.foldersDone, s.cancelled).ids,
              FoldersFlow(c, src, folders, i + 1, script, r.s.cp.foldersDone, r.s.cancelled).ids);
    }
  }

  lemma OneMailboxFrame(s: State, c: Settings, src: Source, folders: seq<Id>, m: MailboxScript)
    requires OneMailbox(s, c, src, folders, m).exit == Go
    ensures
      var r := OneMailbox(s, c, src, folders, m);
      var fl := FoldersFlow(c, src, folders, 0, m.folders, s.cp.foldersDone, s.cancelled);
      && r.s.cancelled == fl.cancelled && r.s.cp.foldersDone == fl.done
      && Tally(r.s) == Tally(s) + multiset(fl.ids)
  {
    CopyFoldersFrame(s, c, src, folders, 0, m.folders);
    CopyFoldersTally(s, c, src, folders, 0, m.folders);
    TallySame(CopyFolders(s, c, src, folders, 0, m.folders).s, OneMailbox(s, c, src, folders, m).s);
  }

  lemma OneMailboxFlow(s: State, c: Settings, src: Source, folders: seq<Id>, m: MailboxScript)
    requires OneMailbox(s, c, src, folders, m).exit == Go
    ensures
      var r := OneMailbox(s, c, src, folders, m);
      var fl := FoldersFlow(c, src, folders, 0, m.folders, s.cp.foldersDone, s.cancelled);
      r.s.cancelled == fl.cancelled && r.s.cp.foldersDone == fl.done
  {
    OneMailboxFrame(s, c, src, folders, m);
  }

  lemma {:induction false} CopyMailboxesFrame(s: State, c: Settings, src: Source, i: nat, script: nat -> MailboxScript)
    requires i <= |src.mailboxes| && CopyMailboxes(s, c, src, i, script).exit == Go
    ensures
      var r := CopyMailboxes(s, c, src, i, script);
      var fl := MailboxesFlow(c, src, i, script, s.cp.foldersDone, s.cancelled);
      r.s.cancelled == fl.cancelled && r.s.cp.foldersDone == fl.done && r.stopped == fl.stopped
    decreases |src.mailboxes| - i
  {
    if i < |src.mailboxes| && !s.cancelled && !script(i).stop {
      if src.mailboxes[i].matched {
        var r := OneMailbox(s, c, src, src.mailboxes[i].folders, script(i));
        assert r.exit == Go && CopyMailboxes(s, c, src, i, script) == CopyMailboxes(r.s, c, src, i + 1, script);
        OneMailboxFlow(s, c, src, src.mailboxes[i].folders, script(i));
        CopyMailboxesFrame(r.s, c, src, i + 1, script);
      } else {
        CopyMailboxesFrame(s, c, src, i + 1, script);
      }
    }
  }

  lemma {:induction false} CopyMailboxesTally(s: State, c: Settings, src: Source, i: nat, script: nat -> MailboxScript)
    requires i <= |src.mailboxes| && CopyMailboxes(s, c, src, i, script).exit == Go
    ensures
      Tally(CopyMailboxes(s, c, src, i, script).s)
        == Tally(s) + multiset(MailboxesFlow(c, src, i, script, s.cp.foldersDone, s.cancelled).ids)
    decreases |src.mailboxes| - i
  {
    if i < |src.mailboxes| && !s.cancelled && !script(i).stop {
      if src.mailboxes[i].matched {
        var folders := src.mailboxes[i].folders;
        var r := OneMailbox(s, c, src, folders, script(i));
        OneMailboxFrame(s, c, src, folders, script(i));
        CopyMailboxesTally(r.s, c, src, i + 1, script);
        TallyOn(s, r.s, CopyMailboxes(r.s, c, src, i + 1, script).s,
                FoldersFlow(c, src, folders, 0, script(i).folders, s.cp.foldersDone, s.cancelled).ids,
                MailboxesFlow(c, src, i + 1, script, r.s.cp.foldersDone, r.s.cancelled).ids);
      } else {
        CopyMailboxesTally(s, c, src, i + 1, script);
      }
    }
  }

  // ----- the books of a run -----

  /** Every counter counts imports. */
  predicate Counted(s: State, b: State) {
    && b.imports <= s.imports
    && s.progress - b.progress == |s.imports| - |b.imports| == s.succeeded - b.succeeded
  }

  /** Of a run that began in `b`: what was logged was sent, in order, was dropped by a send, or waits in the buffer. */
  predicate Balanced(s: State, b: State) {
    && s.sent + (s.dropped + s.buffer) == b.sent + s.logged
    && |b.sent| <= |s.sent| && (s.dropped == [] || s.buffer == [])
  }

  /** What was sent is what was logged first. */
  predicate SentFirst(s: State, b: State) {
    && |b.sent| <= |s.sent| <= |b.sent| + |s.logged|
    && s.sent == b.sent + s.logged[..|s.sent| - |b.sent|]
  }

  /** Exits at which no batch can have been lost: nothing of the control plane's failed. */
  predicate NothingDropped(exit: Exit) {
    exit.Go? || (exit.Raised? && (exit.exn.Throttled? || exit.exn.Graph?))
  }

  lemma BalancedSentFirst(s: State, b: State)
    requires Balanced(s, b)
    ensures SentFirst(s, b)
  {
    assert (s.sent + (s.dropped + s.buffer))[..|s.sent|] == s.sent;
    assert (b.sent + s.logged)[..|s.sent|] == b.sent + s.logged[..|s.sent| - |b.sent|];
  }

  /** The books while a run goes on, and after it went wrong. */
  predicate Sound(s: State, b: State) {
    Counted(s, b) && Balanced(s, b) && s.dropped == []
  }

  predicate SoundAfter(s: State, exit: Exit, b: State) {
    Counted(s, b) && Balanced(s, b) && (NothingDropped(exit) ==> s.dropped == [])
  }

  lemma SoundIsAfter(s: State, exit: Exit, b: State)
    requires Sound(s, b)
    ensures SoundAfter(s, exit, b)
  {
  }

  lemma LoggingSound(s: State, b: State, records: seq<Record>)
    requires Sound(s, b)
    ensures Sound(Logging(s, records), b)
  {
    var t := Logging(s, records);
    assert t.sent + (t.dropped + t.buffer) == (s.sent + (s.dropped + s.buffer)) + records;
    assert b.sent + (s.logged + records) == (b.sent + s.logged) + records;
  }

  lemma {:induction false} ImportOneSound(s: State, b: State, c: Settings, item: Exported, dst: Id,
                                          attempts: nat -> Attempt, k: nat, auth: bool)
    requires Sound(s, b)
    ensures
      var r := ImportOne(s, c, item.item, dst, attempts, k, auth);
      Sound(if r.exit == Go && r.ok then Credited(r.s, item.size) else r.s, b)
    decreases c.maxRetries + 1 - k
  {
    if k <= c.maxRetries {
      if attempts(k).Transient? {
        ImportOneSound(s, b, c, item, dst, attempts, k + 1, attempts(k).auth);
      }
    } else {
      LoggingSound(s, b, [Record(Some(item.item), ItemFailed)]);
    }
  }

  lemma {:induction false} ImportAllSound(s: State, b: State, c: Settings, items: seq<Exported>, j: nat, dst: Id,
                                          imports: nat -> nat -> Attempt)
    requires j <= |items| && Sound(s, b)
    ensures Sound(ImportAll(s, c, items, j, dst, imports).s, b)
    decreases |items| - j
  {
    if j < |items| {
      var r := ImportThenCredit(s, c, items[j], dst, imports(j));
      ImportOneSound(s, b, c, items[j], dst, imports(j), 0, false);
      if r.exit == Go {
        ImportAllSound(r.s, b, c, items, j + 1, dst, imports);
      }
    }
  }

  lemma OneChunkSound(s: State, b: State, c: Settings, ids: seq<Id>, dst: Id, ch: ChunkScript)
    requires Sound(s, b)
    ensures Sound(OneChunk(s, c, ids, dst, ch).s, b)
  {
    var x := Exports(ids, ch);
    if x.exit == Go {
      LoggingSound(s, b, SkippedRecords(x.split.errors));
      ImportAllSound(Logging(s, SkippedRecords(x.split.errors)), b, c, x.split.exported, 0, dst, ch.imports);
    }
  }

  /** A send empties the buffer; one that fails may lose it, and then no later send follows. */
  lemma FlushItemsSound(s: State, b: State, r: Reply)
    requires Sound(s, b)
    ensures
      var q := FlushItems(s, r);
      && SoundAfter(q.s, q.exit, b) && (q.exit == Go ==> Sound(q.s, b)) && q.s.buffer == []
  {
    var q := FlushItems(s, r);
    assert q.s.sent + (q.s.dropped + q.s.buffer) == s.sent + (s.dropped + s.buffer);
  }

  lemma HeartbeatSound(s: State, b: State, beat: Beat, flushSize: nat)
    requires Sound(s, b)
    ensures
      var h := Heartbeat(s, beat, flushSize);
      SoundAfter(h.s, h.exit, b) && (h.exit == Go ==> Sound(h.s, b))
  {
    SoundIsAfter(s, Go, b);
    FlushItemsSound(s, b, beat.items);
    HeartbeatFrame(s, beat, flushSize);
    HeartbeatSends(s, beat, flushSize);
  }

  /** Of the parts the books look at, a heartbeat changes only what its send changes. */
  lemma HeartbeatSends(s: State, beat: Beat, flushSize: nat)
    ensures
      var h := Heartbeat(s, beat, flushSize);
      var q := FlushItems(s, beat.items);
      SameRecords(h.s, s) || (SameRecords(h.s, q.s) && (q.exit != Go ==> h.exit == q.exit))
  {
    var u := s.(cp := s.cp.(progress := s.progress, bytes := s.bytes));
    var f := Flush(u, beat.flush).s;
    assert SameRecords(FlushItems(u, beat.items).s, FlushItems(s, beat.items).s);
    assert SameRecords(FlushItems(f, beat.items).s, FlushItems(s, beat.items).s);
  }

  predicate SameRecords(s: State, t: State) {
    t.sent == s.sent && t.buffer == s.buffer && t.dropped == s.dropped
  }

  lemma ChunkThenBeatSound(s: State, b: State, c: Settings, ids: seq<Id>, dst: Id, ch: ChunkScript)
    requires Sound(s, b)
    ensures
      var r := ChunkThenBeat(s, c, ids, dst, ch);
      SoundAfter(r.s, r.exit, b) && (r.exit == Go ==> Sound(r.s, b))
  {
    var r := OneChunk(s, c, ids, dst, ch);
    OneChunkSound(s, b, c, ids, dst, ch);
    SoundIsAfter(r.s, r.exit, b);
    HeartbeatSound(r.s, b, ch.beat, c.flushSize);
  }

  lemma {:induction false} CopyChunksSound(s: State, b: State, c: Settings, chunks: seq<seq<Id>>, k: nat, dst: Id,
                                           script: nat -> ChunkScript)
    requires k <= |chunks| && Sound(s, b)
    ensures
      var r := CopyChunks(s, c, chunks, k, dst, script);
      SoundAfter(r.s, r.exit, b) && (r.exit == Go ==> Sound(r.s, b))
    decreases |chunks| - k
  {
    SoundIsAfter(s, Go, b);
    if k < |chunks| && !s.cancelled && !script(k).stop {
      var r := ChunkThenBeat(s, c, chunks[k], dst, script(k));
      ChunkThenBeatSound(s, b, c, chunks[k], dst, script(k));
      if r.exit == Go {
        CopyChunksSound(r.s, b, c, chunks, k + 1, dst, script);
      }
    }
  }

  /** Steps that touch none of what the books look at. */
  predicate SameBooks(s: State, t: State) {
    && t.imports == s.imports && t.progress == s.progress && t.succeeded == s.succeeded
    && t.sent == s.sent && t.buffer == s.buffer && t.logged == s.logged && t.dropped == s.dropped
  }

  lemma SameBooksSound(s: State, t: State, exit: Exit, b: State)
    requires SameBooks(s, t)
    ensures Sound(s, b) == Sound(t, b) && SoundAfter(s, exit, b) == SoundAfter(t, exit, b)
  {
  }

  lemma FolderItemsSound(s: State, b: State, c: Settings, folder: Id, entries: seq<Entry>, dst: Id, f: FolderScript)
    requires Sound(s, b)
    ensures
      var r := FolderItems(s, c, folder, entries, dst, f);
      SoundAfter(r.s, r.exit, b) && (r.exit == Go ==> Sound(r.s, b))
  {
    var r := FolderItems(s, c, folder, entries, dst, f);
    if f.enumeration != Ok {
      SoundIsAfter(s, r.exit, b);
    } else {
      var q := CopyChunks(s, c, Chunks(Added(entries), MAX_EXPORT_BATCH), 0, dst, f.chunks);
      CopyChunksSound(s, b, c, Chunks(Added(entries), MAX_EXPORT_BATCH), 0, dst, f.chunks);
      SameBooksSound(q.s, r.s, r.exit, b);
    }
  }

  lemma OneFolderSound(s: State, b: State, c: Settings, folder: Id, entries: seq<Entry>, f: FolderScript)
    requires Sound(s, b)
    ensures
      var r := OneFolder(s, c, folder, entries, f);
      SoundAfter(r.s, r.exit, b) && (r.exit == Go ==> Sound(r.s, b))
  {
    var e := EnsureFolder(s, folder, f);
    SameBooksSound(s, e.s, e.exit, b);
    SoundIsAfter(s, e.exit, b);
    SoundIsAfter(s, Go, b);
    if !(folder in s.cp.foldersDone && !c.isDelta) && e.exit == Go {
      var r := FolderItems(e.s, c, folder, entries, e.dst, f);
      FolderItemsSound(e.s, b, c, folder, entries, e.dst, f);
      if r.exit == Go {
        SameBooksSound(r.s, MarkedDone(r.s, c, folder), Go, b);
        HeartbeatSound(MarkedDone(r.s, c, folder), b, f.beat, c.flushSize);
      }
    }
  }

  lemma {:induction false} CopyFoldersSound(s: State, b: State, c: Settings, src: Source, folders: seq<Id>, i: nat,
                                            script: nat -> FolderScript)
    requires i <= |folders| && Sound(s, b)
    ensures
      var r := CopyFolders(s, c, src, folders, i, script);
      SoundAfter(r.s, r.exit, b) && (r.exit == Go ==> Sound(r.s, b))
    decreases |folders| - i
  {
    SoundIsAfter(s, Go, b);
    if i < |folders| && !s.cancelled && !script(i).stop {
      var r := OneFolder(s, c, folders[i], src.entries(folders[i]), script(i));
      OneFolderSound(s, b, c, folders[i], src.entries(folders[i]), script(i));
      if r.exit == Go {
        CopyFoldersSound(r.s, b, c, src, folders, i + 1, script);
      }
    }
  }

  lemma OneMailboxSound(s: State, b: State, c: Settings, src: Source, folders: seq<Id>, m: MailboxScript)
    requires Sound(s, b)
    ensures
      var r := OneMailbox(s, c, src, folders, m);
      SoundAfter(r.s, r.exit, b) && (r.exit == Go ==> Sound(r.s, b))
  {
    var r := OneMailbox(s, c, src, folders, m);
    SoundIsAfter(s, r.exit, b);
    if m.enumeration == Ok {
      var q := CopyFolders(s, c, src, folders, 0, m.folders);
      CopyFoldersSound(s, b, c, src, folders, 0, m.folders);
      SameBooksSound(q.s, r.s, r.exit, b);
    }
  }

  lemma {:induction false} CopyMailboxesSound(s: State, b: State, c: Settings, src: Source, i: nat,
                                              script: nat -> MailboxScript)
    requires i <= |src.mailboxes| && Sound(s, b)
    ensures
      var r := CopyMailboxes(s, c, src, i, script);
      SoundAfter(r.s, r.exit, b) && (r.exit == Go ==> Sound(r.s, b))
    decreases |src.mailboxes| - i
  {
    SoundIsAfter(s, Go, b);
    if i < |src.mailboxes| && !s.cancelled && !script(i).stop {
      if !src.mailboxes[i].matched {
        CopyMailboxesSound(s, b, c, src, i + 1, script);
      } else {
        var r := OneMailbox(s, c, src, src.mailboxes[i].folders, script(i));
        OneMailboxSound(s, b, c, src, src.mailboxes[i].folders, script(i));
        if r.exit == Go {
          CopyMailboxesSound(r.s, b, c, src, i + 1, script);
        }
      }
    }
  }

  lemma LoadedSound(s: State)
    ensures Sound(Loaded(s), Loaded(s))
  {
  }

  /** However a run ends, what it sent is what it logged first, and nothing is lost but after a failed send. */
  lemma RunSound(s: State, c: Settings, src: Source, script: Script)
    ensures
      var r := Run(Loaded(s), c, src, script);
      SoundAfter(r.s, r.exit, Loaded(s)) && (ReturnsCompleted(r) ==> r.s.buffer == [])
  {
    var l := Loaded(s);
    LoadedSound(s);
    SoundIsAfter(l, Run(l, c, src, script).exit, l);
    if script.opening == Ok && script.resolution == Ok {
      var r := CopyMailboxes(l, c, src, 0, script.mailboxes);
      CopyMailboxesSound(l, l, c, src, 0, script.mailboxes);
      if r.exit == Go && !r.stopped {
        ClosingSound(r.s, l, script);
      }
    }
  }

  lemma ClosingSound(s: State, b: State, script: Script)
    requires Sound(s, b)
    ensures
      var q := Closing(s, script);
      SoundAfter(q.s, q.exit, b) && (q.exit == Go ==> q.s.buffer == [])
  {
    var q := FlushItems(s, script.closingItems);
    FlushItemsSound(s, b, script.closingItems);
    if q.exit == Go {
      SoundIsAfter(q.s, Closing(s, script).exit, b);
      SameBooksSound(q.s, Closing(s, script).s, Closing(s, script).exit, b);
    }
  }

  // ----- completed runs -----

  predicate ReturnsCompleted(r: LoopResult) {
    r.exit == Go && !r.stopped
  }

  function RunFlow(s: State, c: Settings, src: Source, script: Script): Flow {
    MailboxesFlow(c, src, 0, script.mailboxes, s.persisted.foldersDone, false)
  }

  /** A completed run is its mailbox loop and a successful send of the rest of the buffer. */
  lemma CompletedIs(s: State, c: Settings, src: Source, script: Script)
    requires ReturnsCompleted(Run(s, c, src, script))
    ensures
      var r := CopyMailboxes(s, c, src, 0, script.mailboxes);
      var q := FlushItems(r.s, script.closingItems);
      && r.exit == Go && !r.stopped && q.exit == Go
      && Run(s, c, src, script).s == q.s.(persisted := r.s.cp)
  {
  }

  lemma CompletedFollows(s: State, c: Settings, src: Source, script: Script)
    requires ReturnsCompleted(Run(Loaded(s), c, src, script))
    ensures
      var t := Run(Loaded(s), c, src, script).s;
      var f := RunFlow(s, c, src, script);
      Tally(t) == multiset(ImportIds(s.imports)) + multiset(f.ids) && !f.stopped && t.persisted.foldersDone == f.done
  {
    var l := Loaded(s);
    CompletedIs(l, c, src, script);
    CopyMailboxesFrame(l, c, src, 0, script.mailboxes);
    CopyMailboxesTally(l, c, src, 0, script.mailboxes);
    TallySame(CopyMailboxes(l, c, src, 0, script.mailboxes).s, Run(l, c, src, script).s);
    NothingLogged(l);
  }

  lemma NothingLogged(s: State)
    requires s.logged == []
    ensures Tally(s) == multiset(ImportIds(s.imports))
  {
    assert RecordIds(s.logged) == [];
  }

  /**
   * A run that returns COMPLETED, stopped or not, imported or logged exactly the answered entries,
   * counted each once: its item records were all sent, in the order they were logged, and progress and
   * the success count grew by the imports alone.
   */
  lemma CompletedAccountsExactly(s: State, c: Settings, src: Source, script: Script)
    requires ReturnsCompleted(Run(Loaded(s), c, src, script))
    ensures
      var t := Run(Loaded(s), c, src, script).s;
      var f := RunFlow(s, c, src, script);
      && s.imports <= t.imports
      && Tally(t) == multiset(ImportIds(s.imports)) + multiset(f.ids)
      && t.sent == s.sent + t.logged && t.buffer == []
      && t.progress == s.persisted.progress + t.succeeded && t.succeeded == |t.imports| - |s.imports|
      && |f.ids| == t.succeeded + (|t.sent| - |s.sent|)
  {
    var t := Run(Loaded(s), c, src, script).s;
    var f := RunFlow(s, c, src, script);
    CompletedFollows(s, c, src, script);
    RunSound(s, c, src, script);
    TallySize(t);
    assert |multiset(f.ids)| == |f.ids| && |multiset(ImportIds(s.imports))| == |s.imports|;
    assert t.sent + [] == t.sent;
  }

  // ----- which entries a run is answered -----

  ghost predicate ChunksUnstopped(script: nat -> ChunkScript) {
    forall k: nat :: !script(k).stop && !script(k).beat.cancelSeen
  }

  /** Each export response holds one entry for each id asked for, in any order. */
  ghost predicate OneEntryEach(chunks: seq<seq<Id>>, script: nat -> ChunkScript) {
    forall k: nat | k < |chunks| :: multiset(EntryIds(script(k).entries)) == multiset(Somes(chunks[k]))
  }

  ghost predicate FoldersAnswered(src: Source, folders: seq<Id>, script: nat -> FolderScript) {
    forall i: nat | i < |folders| ::
      OneEntryEach(Chunks(Added(src.entries(folders[i])), MAX_EXPORT_BATCH), script(i).chunks)
  }

  ghost predicate Answered(src: Source, script: nat -> MailboxScript) {
    forall i: nat | i < |src.mailboxes| :: FoldersAnswered(src, src.mailboxes[i].folders, script(i).folders)
  }

  lemma SomesConcat(a: seq<Id>, b: seq<Id>)
    ensures multiset(Somes(a + b)) == multiset(Somes(a)) + multiset(Somes(b))
  {
    assert Somes(a + b) == Somes(a) + Somes(b);
  }

  /** How many chunks are processed before a stop or a cancellation is seen between two of them. */
  function Processed(n: nat, k: nat, script: nat -> ChunkScript, cancelled: bool): (p: nat)
    requires k <= n
    ensures k <= p <= n
    decreases n - k
  {
    if k == n || cancelled || script(k).stop then k else Processed(n, k + 1, script, script(k).beat.cancelSeen)
  }

  lemma {:induction false} ChunkFlowIs(chunks: seq<seq<Id>>, k: nat, script: nat -> ChunkScript, cancelled: bool)
    requires k <= |chunks| && OneEntryEach(chunks, script)
    ensures
      multiset(ChunkFlow(|chunks|, k, script, cancelled).ids)
        == multiset(Somes(Concat(chunks[k..Processed(|chunks|, k, script, cancelled)])))
    decreases |chunks| - k
  {
    var p := Processed(|chunks|, k, script, cancelled);
    if k < |chunks| && !cancelled && !script(k).stop {
      ChunkFlowIs(chunks, k + 1, script, script(k).beat.cancelSeen);
      assert chunks[k..p][1..] == chunks[k + 1..p];
      SomesConcat(chunks[k], Concat(chunks[k + 1..p]));
    } else {
      assert Concat(chunks[k..p]) == [];
      assert Somes([]) == [];
    }
  }

  lemma {:induction false} ConcatSize(a: seq<seq<Id>>, b: seq<seq<Id>>)
    requires forall k | 0 <= k < |b| :: b[k] != []
    ensures |Concat(a + b)| >= |Concat(a)| + |b|
  {
    if a != [] {
      assert (a + b)[1..] == a[1..] + b;
      ConcatSize(a[1..], b);
    } else {
      assert a + b == b;
      if b != [] {
        ConcatSize([], b[1..]);
        assert [] + b[1..] == b[1..];
      }
    }
  }

  lemma PrefixExact(chunks: seq<seq<Id>>, p: nat)
    requires p <= |chunks| && forall k | 0 <= k < |chunks| :: chunks[k] != []
    ensures multiset(Somes(Concat(chunks[..p]))) == multiset(Somes(Concat(chunks))) <==> p == |chunks|
  {
    ConcatSize(chunks[..p], chunks[p..]);
    assert chunks[..p] + chunks[p..] == chunks;
    assert |multiset(Somes(Concat(chunks[..p])))| == |Concat(chunks[..p])|;
    assert |multiset(Somes(Concat(chunks)))| == |Concat(chunks)|;
    if p == |chunks| {
      assert chunks[..p] == chunks;
    }
  }

  lemma FolderGot(s: State, c: Settings, folder: Id, entries: seq<Entry>, f: FolderScript)
    requires (c.isDelta || folder !in s.cp.foldersDone) && OneFolder(s, c, folder, entries, f).exit == Go
    requires OneEntryEach(Chunks(Added(entries), MAX_EXPORT_BATCH), f.chunks)
    ensures
      var t := OneFolder(s, c, folder, entries, f).s;
      var chunks := Chunks(Added(entries), MAX_EXPORT_BATCH);
      Tally(t) == Tally(s) + multiset(Somes(Concat(chunks[..Processed(|chunks|, 0, f.chunks, s.cancelled)])))
  {
    var chunks := Chunks(Added(entries), MAX_EXPORT_BATCH);
    var p := Processed(|chunks|, 0, f.chunks, s.cancelled);
    OneFolderTally(s, c, folder, entries, f);
    ChunkFlowIs(chunks, 0, f.chunks, s.cancelled);
    assert chunks[0..p] == chunks[..p];
  }

  /** What a folder pass that returns has marked: the folder, on a full pass, and its delta link. */
  lemma FolderMarks(s: State, c: Settings, folder: Id, entries: seq<Entry>, f: FolderScript)
    requires (c.isDelta || folder !in s.cp.foldersDone) && OneFolder(s, c, folder, entries, f).exit == Go
    ensures
      var t := OneFolder(s, c, folder, entries, f).s;
      && t.cp.foldersDone == Marked(c, folder, s.cp.foldersDone)
      && (f.deltaLink.Some? ==> folder in t.cp.itemDeltas && t.cp.itemDeltas[folder] == f.deltaLink.value)
  {
    var e := EnsureFolder(s, folder, f);
    EnsureFrame(s, folder, f);
    FolderItemsFrame(e.s, c, folder, entries, e.dst, f);
    FolderEndFrame(FolderItems(e.s, c, folder, entries, e.dst, f).s, c, folder, f.beat);
  }

  /**
   * A folder pass that returns has marked the folder done, on a full pass, and kept its delta link, on
   * either pass, whether or not it was stopped; it dealt with all the items the link stands for exactly
   * when no stop was seen before its last chunk was processed.
   */
  lemma FolderCompleteIff(s: State, c: Settings, folder: Id, entries: seq<Entry>, f: FolderScript)
    requires (c.isDelta || folder !in s.cp.foldersDone) && OneFolder(s, c, folder, entries, f).exit == Go
    requires OneEntryEach(Chunks(Added(entries), MAX_EXPORT_BATCH), f.chunks)
    ensures
      var t := OneFolder(s, c, folder, entries, f).s;
      var n := |Chunks(Added(entries), MAX_EXPORT_BATCH)|;
      && t.cp.foldersDone == Marked(c, folder, s.cp.foldersDone)
      && (f.deltaLink.Some? ==> folder in t.cp.itemDeltas && t.cp.itemDeltas[folder] == f.deltaLink.value)
      && (Tally(t) == Tally(s) + multiset(Somes(Added(entries))) <==> Processed(n, 0, f.chunks, s.cancelled) == n)
  {
    var chunks := Chunks(Added(entries), MAX_EXPORT_BATCH);
    var p := Processed(|chunks|, 0, f.chunks, s.cancelled);
    FolderMarks(s, c, folder, entries, f);
    FolderGot(s, c, folder, entries, f);
    NoEmptyChunk(Added(entries));
    PrefixExact(chunks, p);
    ChunksPartition(Added(entries), MAX_EXPORT_BATCH);
    Cancel(Tally(s), multiset(Somes(Concat(chunks[..p]))), multiset(Somes(Added(entries))));
  }

  lemma Cancel(a: multiset<Option<Id>>, b: multiset<Option<Id>>, d: multiset<Option<Id>>)
    ensures a + b == a + d <==> b == d
  {
    if a + b == a + d {
      assert b == (a + b) - a;
      assert d == (a + d) - a;
    }
  }

  // ----- where imports land -----

  /** All imports between two states went to `dst`, in the mode of the pass. */
  predicate Lands(s: State, t: State, dst: Id, c: Settings) {
    && s.imports <= t.imports
    && forall k | |s.imports| <= k < |t.imports| :: t.imports[k].folder == dst && t.imports[k].update == c.isDelta
  }

  lemma LandsOn(s: State, t: State, u: State, dst: Id, c: Settings)
    requires Lands(s, t, dst, c) && Lands(t, u, dst, c)
    ensures Lands(s, u, dst, c)
  {
  }

  lemma {:induction false} ImportOneLands(s: State, c: Settings, item: Id, dst: Id, attempts: nat -> Attempt, k: nat,
                                          auth: bool)
    ensures Lands(s, ImportOne(s, c, item, dst, attempts, k, auth).s, dst, c)
    decreases c.maxRetries + 1 - k
  {
    if k <= c.maxRetries && attempts(k).Transient? {
      ImportOneLands(s, c, item, dst, attempts, k + 1, attempts(k).auth);
    }
  }

  lemma {:induction false} ImportAllLands(s: State, c: Settings, items: seq<Exported>, j: nat, dst: Id,
                                          imports: nat -> nat -> Attempt)
    requires j <= |items|
    ensures Lands(s, ImportAll(s, c, items, j, dst, imports).s, dst, c)
    decreases |items| - j
  {
    if j < |items| {
      var r := ImportThenCredit(s, c, items[j], dst, imports(j));
      ImportOneLands(s, c, items[j].item, dst, imports(j), 0, false);
      if r.exit == Go {
        ImportAllLands(r.s, c, items, j + 1, dst, imports);
        LandsOn(s, r.s, ImportAll(r.s, c, items, j + 1, dst, imports).s, dst, c);
      }
    }
  }

  lemma ChunkThenBeatLands(s: State, c: Settings, ids: seq<Id>, dst: Id, ch: ChunkScript)
    ensures Lands(s, ChunkThenBeat(s, c, ids, dst, ch).s, dst, c)
  {
    var x := Exports(ids, ch);
    if x.exit == Go {
      ImportAllLands(Logging(s, SkippedRecords(x.split.errors)), c, x.split.exported, 0, dst, ch.imports);
    }
    var r := OneChunk(s, c, ids, dst, ch);
    assert Heartbeat(r.s, ch.beat, c.flushSize).s.imports == r.s.imports;
  }

  lemma {:induction false} CopyChunksLands(s: State, c: Settings, chunks: seq<seq<Id>>, k: nat, dst: Id,
                                           script: nat -> ChunkScript)
    requires k <= |chunks|
    ensures Lands(s, CopyChunks(s, c, chunks, k, dst, script).s, dst, c)
    decreases |chunks| - k
  {
    if k < |chunks| && !s.cancelled && !script(k).stop {
      var r := ChunkThenBeat(s, c, chunks[k], dst, script(k));
      ChunkThenBeatLands(s, c, chunks[k], dst, script(k));
      if r.exit == Go {
        CopyChunksLands(r.s, c, chunks, k + 1, dst, script);
        LandsOn(s, r.s, CopyChunks(r.s, c, chunks, k + 1, dst, script).s, dst, c);
      }
    }
  }

  /**
   * However a folder pass ends, what it imported went to the folder its source folder is mapped to, as
   * creations on a full pass and updates on a delta pass, and no folder is ever mapped anew.
   */
  lemma FolderImportsLand(s: State, c: Settings, folder: Id, entries: seq<Entry>, f: FolderScript)
    ensures
      var t := OneFolder(s, c, folder, entries, f).s;
      && (forall x | x in s.cp.folderMap :: x in t.cp.folderMap && t.cp.folderMap[x] == s.cp.folderMap[x])
      && s.imports <= t.imports
      && (|s.imports| < |t.imports| ==> folder in t.cp.folderMap && Lands(s, t, t.cp.folderMap[folder], c))
  {
    var e := EnsureFolder(s, folder, f);
    EnsureFrame(s, folder, f);
    if !(folder in s.cp.foldersDone && !c.isDelta) && e.exit == Go && f.enumeration == Ok {
      var chunks := Chunks(Added(entries), MAX_EXPORT_BATCH);
      CopyChunksLands(e.s, c, chunks, 0, e.dst, f.chunks);
      var r := FolderItems(e.s, c, folder, entries, e.dst, f);
      FolderItemsFrame(e.s, c, folder, entries, e.dst, f);
      FolderEndFrame(r.s, c, folder, f.beat);
    }
  }

  // ----- when a run stops early -----

  ghost predicate CancelSeen(script: nat -> MailboxScript) {
    exists i: nat, j: nat :: script(i).folders(j).beat.cancelSeen || ChunkCancelSeen(script(i).folders(j).chunks)
  }

  ghost predicate ChunkCancelSeen(script: nat -> ChunkScript) {
    exists k: nat :: script(k).beat.cancelSeen
  }

  lemma {:induction false} ChunksCancelled(n: nat, k: nat, script: nat -> ChunkScript, cancelled: bool)
    requires k <= n
    ensures ChunkFlow(n, k, script, cancelled).cancelled ==> cancelled || ChunkCancelSeen(script)
    decreases n - k
  {
    if k < n && !cancelled && !script(k).stop {
      ChunksCancelled(n, k + 1, script, script(k).beat.cancelSeen);
    }
  }

  lemma {:induction false} FoldersCancelled(c: Settings, src: Source, folders: seq<Id>, i: nat,
                                            m: nat -> FolderScript, done: seq<Id>, cancelled: bool)
    requires i <= |folders|
    ensures FoldersFlow(c, src, folders, i, m, done, cancelled).cancelled ==>
      cancelled || exists j: nat :: m(j).beat.cancelSeen || ChunkCancelSeen(m(j).chunks)
    decreases |folders| - i
  {
    if i < |folders| && !cancelled && !m(i).stop {
      var r := FolderFlow(c, folders[i], src.entries(folders[i]), m(i), done, cancelled);
      ChunksCancelled(|Chunks(Added(src.entries(folders[i])), MAX_EXPORT_BATCH)|, 0, m(i).chunks, cancelled);
      FoldersCancelled(c, src, folders, i + 1, m, r.done, r.cancelled);
    }
  }

  lemma {:induction false} MailboxesStopped(c: Settings, src: Source, i: nat, script: nat -> MailboxScript,
                                            done: seq<Id>, cancelled: bool)
    requires i <= |src.mailboxes|
    ensures MailboxesFlow(c, src, i, script, done, cancelled).stopped ==>
      cancelled || CancelSeen(script) || exists k: nat :: script(k).stop
    decreases |src.mailboxes| - i
  {
    if i < |src.mailboxes| && !cancelled && !script(i).stop {
      if src.mailboxes[i].matched {
        var folders := src.mailboxes[i].folders;
        var r := FoldersFlow(c, src, folders, 0, script(i).folders, done, cancelled);
        FoldersCancelled(c, src, folders, 0, script(i).folders, done, cancelled);
        if r.cancelled {
          var j: nat :| script(i).folders(j).beat.cancelSeen || ChunkCancelSeen(script(i).folders(j).chunks);
          assert CancelSeen(script);
        }
        MailboxesStopped(c, src, i + 1, script, r.done, r.cancelled);
      } else {
        MailboxesStopped(c, src, i + 1, script, done, cancelled);
      }
    }
  }

  /** A run that returns a running status has seen a stop request or a cancellation. */
  lemma StoppedIsSeen(s: State, c: Settings, src: Source, script: Script)
    requires Run(Loaded(s), c, src, script).exit == Go && Run(Loaded(s), c, src, script).stopped
    ensures CancelSeen(script.mailboxes) || exists k: nat :: script.mailboxes(k).stop
  {
    CopyMailboxesFrame(Loaded(s), c, src, 0, script.mailboxes);
    MailboxesStopped(c, src, 0, script.mailboxes, s.persisted.foldersDone, false);
  }
}
