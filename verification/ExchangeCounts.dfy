/**
 * What the books of a mailbox pass say: which entries of the export responses its imports and its records
 * answer for, how many bytes it counts for them, and what a chunk or a closing that fails leaves behind.
 */
module ExchangeCounts {
  import opened Wrappers
  import opened Replies
  import opened Exchange
  import opened ExchangeProofs

  // ----- one export request -----

  /**
   * Twenty ids are the most one request takes: more are refused before it is made, and none at all need
   * none. Otherwise it goes on just when it is answered and every good entry of the answer has an id.
   */
  lemma ExportIff(ids: seq<Id>, ch: ChunkScript)
    ensures
      Exports(ids, ch).exit == Go <==>
      ids == [] || (|ids| <= 20 && ch.reply == Ok && forall e | e in ch.entries && Good(e) :: e.item.Some?)
    ensures ids == [] ==> Exports(ids, ch).split == Split([], [])
    ensures |ids| > 20 ==> Exports(ids, ch).exit == Raised(Other)
  {
    SplitIff(ch.entries, Split([], []));
  }

  /** An entry that gives an item to import. */
  predicate Good(e: ExportEntry) {
    !e.failed && e.size > 0
  }

  lemma {:induction false} SplitIff(entries: seq<ExportEntry>, acc: Split)
    ensures SplitFrom(entries, acc).Some? <==> forall e | e in entries && Good(e) :: e.item.Some?
  {
    if entries != [] {
      var e := entries[0];
      assert entries == [e] + entries[1..];
      if !Good(e) {
        SplitIff(entries[1..], acc.(errors := acc.errors + [e.item]));
      } else if e.item.Some? {
        SplitIff(entries[1..], acc.(exported := acc.exported + [Exported(e.item.value, e.size)]));
      }
    }
  }

  /** A chunk whose export goes wrong leaves everything as it was. */
  lemma ChunkUntouched(s: State, c: Settings, ids: seq<Id>, dst: Id, ch: ChunkScript)
    requires Exports(ids, ch).exit != Go
    ensures OneChunk(s, c, ids, dst, ch) == Result(s, Exports(ids, ch).exit)
  {
  }

  // ----- what imports and records answer for -----

  /** The entries of responses under consideration. */
  type Pool = ExportEntry -> bool

  /** SKIPPED tells of an entry the export rejected or left empty, FAILED of one that could not be imported. */
  predicate Explains(e: ExportEntry, r: Record) {
    e.item == r.item && (r.status == ItemSkipped <==> !Good(e))
  }

  ghost predicate ExplainedIn(pool: Pool, r: Record) {
    exists e :: pool(e) && Explains(e, r)
  }

  ghost predicate ExportedIn(pool: Pool, item: Id) {
    exists e :: pool(e) && Good(e) && e.item == Some(item)
  }

  /** Every good entry decodes to `lo` to `hi` bytes, three for each four characters and rounded down. */
  ghost predicate Decodes(pool: Pool, lo: nat, hi: nat) {
    forall e | pool(e) && Good(e) :: 4 * lo <= 3 * e.size < 4 * hi + 4
  }

  /** What happened between two states answers for entries of the pool. */
  ghost predicate Accounts(s: State, t: State, pool: Pool, lo: nat, hi: nat) {
    && s.imports <= t.imports && s.logged <= t.logged
    && (forall k | |s.logged| <= k < |t.logged| :: ExplainedIn(pool, t.logged[k]))
    && (forall k | |s.imports| <= k < |t.imports| :: ExportedIn(pool, t.imports[k].item))
    && Weighed(t.bytes - s.bytes, |t.imports| - |s.imports|, lo, hi)
  }

  predicate Weighed(bytes: int, imports: nat, lo: nat, hi: nat) {
    lo * imports <= bytes <= hi * imports
  }

  lemma WeighedOn(a: int, m: nat, b: int, n: nat, lo: nat, hi: nat)
    requires Weighed(a, m, lo, hi) && Weighed(b, n, lo, hi)
    ensures Weighed(a + b, m + n, lo, hi)
  {
    assert lo * (m + n) == lo * m + lo * n && hi * (m + n) == hi * m + hi * n;
  }

  lemma AccountsOn(s: State, t: State, u: State, pool: Pool, lo: nat, hi: nat)
    requires Accounts(s, t, pool, lo, hi) && Accounts(t, u, pool, lo, hi)
    ensures Accounts(s, u, pool, lo, hi)
  {
    WeighedOn(t.bytes - s.bytes, |t.imports| - |s.imports|, u.bytes - t.bytes, |u.imports| - |t.imports|, lo, hi);
  }

  /** Nothing imported, logged or counted. */
  predicate SameCounts(s: State, t: State) {
    t.imports == s.imports && t.logged == s.logged && t.bytes == s.bytes
  }

  lemma SameAccounts(s: State, t: State, pool: Pool, lo: nat, hi: nat)
    requires SameCounts(s, t)
    ensures Accounts(s, t, pool, lo, hi)
  {
    assert lo * 0 == 0 && hi * 0 == 0;
  }

  // ----- an item -----

  lemma {:induction false} ImportOneEnds(s: State, c: Settings, item: Id, dst: Id, attempts: nat -> Attempt, k: nat,
                                         auth: bool)
    ensures
      var r := ImportOne(s, c, item, dst, attempts, k, auth);
      && r.s.bytes == s.bytes && (r.ok ==> r.exit == Go)
      && r.s.imports == (if r.ok then s.imports + [Import(item, dst, c.isDelta)] else s.imports)
      && r.s.logged == (if r.exit == Go && !r.ok then s.logged + [Record(Some(item), ItemFailed)] else s.logged)
    decreases c.maxRetries + 1 - k
  {
    if k <= c.maxRetries && attempts(k).Transient? {
      ImportOneEnds(s, c, item, dst, attempts, k + 1, attempts(k).auth);
    }
  }

  lemma ImportThenCreditAccounts(s: State, c: Settings, item: Exported, dst: Id, attempts: nat -> Attempt,
                                 e: ExportEntry, pool: Pool, lo: nat, hi: nat)
    requires pool(e) && Good(e) && e.item == Some(item.item) && e.size == item.size && Decodes(pool, lo, hi)
    ensures Accounts(s, ImportThenCredit(s, c, item, dst, attempts).s, pool, lo, hi)
  {
    ImportOneEnds(s, c, item.item, dst, attempts, 0, false);
    var r := ImportOne(s, c, item.item, dst, attempts, 0, false);
    assert Explains(e, Record(Some(item.item), ItemFailed));
    assert ExportedIn(pool, item.item);
    if r.ok {
      assert lo <= item.size * 3 / 4 <= hi;
      assert Weighed(item.size * 3 / 4, 1, lo, hi);
    } else {
      assert Weighed(0, 0, lo, hi) by { assert lo * 0 == 0 && hi * 0 == 0; }
    }
  }

  // ----- a chunk -----

  /** Where an exported item comes from. */
  ghost predicate FromEntry(pool: Pool, x: Exported) {
    exists e :: pool(e) && Good(e) && e.item == Some(x.item) && e.size == x.size
  }

  lemma {:induction false} ImportAllAccounts(s: State, c: Settings, items: seq<Exported>, j: nat, dst: Id,
                                            imports: nat -> nat -> Attempt, pool: Pool, lo: nat, hi: nat)
    requires j <= |items| && Decodes(pool, lo, hi) && forall k | 0 <= k < |items| :: FromEntry(pool, items[k])
    ensures Accounts(s, ImportAll(s, c, items, j, dst, imports).s, pool, lo, hi)
    decreases |items| - j
  {
    if j == |items| {
      SameAccounts(s, s, pool, lo, hi);
    } else {
      assert FromEntry(pool, items[j]);
      var e :| pool(e) && Good(e) && e.item == Some(items[j].item) && e.size == items[j].size;
      var r := ImportThenCredit(s, c, items[j], dst, imports(j));
      ImportThenCreditAccounts(s, c, items[j], dst, imports(j), e, pool, lo, hi);
      if r.exit == Go {
        ImportAllAccounts(r.s, c, items, j + 1, dst, imports, pool, lo, hi);
        AccountsOn(s, r.s, ImportAll(r.s, c, items, j + 1, dst, imports).s, pool, lo, hi);
      }
    }
  }

  /** Both lists of a split are made of entries of the pool. */
  ghost predicate SplitOf(pool: Pool, split: Split) {
    && (forall k | 0 <= k < |split.exported| :: FromEntry(pool, split.exported[k]))
    && (forall k | 0 <= k < |split.errors| :: ExplainedIn(pool, Record(split.errors[k], ItemSkipped)))
  }

  lemma {:induction false} SplitAccounts(entries: seq<ExportEntry>, acc: Split, pool: Pool)
    requires SplitOf(pool, acc) && forall e | e in entries :: pool(e)
    ensures SplitFrom(entries, acc).Some? ==> SplitOf(pool, SplitFrom(entries, acc).value)
  {
    if entries != [] {
      var e := entries[0];
      if !Good(e) {
        assert Explains(e, Record(e.item, ItemSkipped));
        SplitAccounts(entries[1..], acc.(errors := acc.errors + [e.item]), pool);
      } else if e.item.Some? {
        assert FromEntry(pool, Exported(e.item.value, e.size));
        SplitAccounts(entries[1..], acc.(exported := acc.exported + [Exported(e.item.value, e.size)]), pool);
      }
    }
  }

  lemma SkippedAccounts(s: State, errors: seq<Option<Id>>, pool: Pool, lo: nat, hi: nat)
    requires forall k | 0 <= k < |errors| :: ExplainedIn(pool, Record(errors[k], ItemSkipped))
    ensures Accounts(s, Logging(s, SkippedRecords(errors)), pool, lo, hi)
  {
    assert lo * 0 == 0 && hi * 0 == 0;
  }

  lemma ChunkAccounts(s: State, c: Settings, ids: seq<Id>, dst: Id, ch: ChunkScript, pool: Pool, lo: nat, hi: nat)
    requires Decodes(pool, lo, hi) && forall e | e in ch.entries :: pool(e)
    ensures Accounts(s, ChunkThenBeat(s, c, ids, dst, ch).s, pool, lo, hi)
  {
    var r := OneChunk(s, c, ids, dst, ch);
    var x := Exports(ids, ch);
    if x.exit != Go {
      SameAccounts(s, s, pool, lo, hi);
    } else {
      SplitAccounts(ch.entries, Split([], []), pool);
      var l := Logging(s, SkippedRecords(x.split.errors));
      SkippedAccounts(s, x.split.errors, pool, lo, hi);
      ImportAllAccounts(l, c, x.split.exported, 0, dst, ch.imports, pool, lo, hi);
      AccountsOn(s, l, r.s, pool, lo, hi);
      BeatAccounts(s, r.s, ch.beat, c.flushSize, pool, lo, hi);
    }
  }

  lemma BeatAccounts(s: State, t: State, b: Beat, flushSize: nat, pool: Pool, lo: nat, hi: nat)
    requires Accounts(s, t, pool, lo, hi)
    ensures Accounts(s, Heartbeat(t, b, flushSize).s, pool, lo, hi)
  {
    BeatCounts(t, b, flushSize);
  }

  lemma BeatCounts(t: State, b: Beat, flushSize: nat)
    ensures SameCounts(t, Heartbeat(t, b, flushSize).s)
  {
  }

  // ----- a folder, a mailbox, a run -----

  ghost predicate ChunksIn(script: nat -> ChunkScript, pool: Pool) {
    forall k: nat, e | e in script(k).entries :: pool(e)
  }

  ghost predicate FoldersIn(script: nat -> FolderScript, pool: Pool) {
    forall j: nat :: ChunksIn(script(j).chunks, pool)
  }

  ghost predicate MailboxesIn(script: nat -> MailboxScript, pool: Pool) {
    forall i: nat :: FoldersIn(script(i).folders, pool)
  }

  lemma {:induction false} CopyChunksAccounts(s: State, c: Settings, chunks: seq<seq<Id>>, k: nat, dst: Id,
                                             script: nat -> ChunkScript, pool: Pool, lo: nat, hi: nat)
    requires k <= |chunks| && Decodes(pool, lo, hi) && ChunksIn(script, pool)
    ensures Accounts(s, CopyChunks(s, c, chunks, k, dst, script).s, pool, lo, hi)
    decreases |chunks| - k
  {
    if k == |chunks| || s.cancelled || script(k).stop {
      SameAccounts(s, s, pool, lo, hi);
    } else {
      var r := ChunkThenBeat(s, c, chunks[k], dst, script(k));
      ChunkAccounts(s, c, chunks[k], dst, script(k), pool, lo, hi);
      if r.exit == Go {
        CopyChunksAccounts(r.s, c, chunks, k + 1, dst, script, pool, lo, hi);
        AccountsOn(s, r.s, CopyChunks(r.s, c, chunks, k + 1, dst, script).s, pool, lo, hi);
      }
    }
  }

  lemma ItemsAccounts(s: State, c: Settings, folder: Id, entries: seq<Entry>, dst: Id, f: FolderScript, pool: Pool,
                      lo: nat, hi: nat)
    requires Decodes(pool, lo, hi) && ChunksIn(f.chunks, pool)
    ensures Accounts(s, FolderItems(s, c, folder, entries, dst, f).s, pool, lo, hi)
  {
    SameAccounts(s, s, pool, lo, hi);
    CopyChunksAccounts(s, c, Chunks(Added(entries), MAX_EXPORT_BATCH), 0, dst, f.chunks, pool, lo, hi);
  }

  lemma EnsureCounts(s: State, folder: Id, f: FolderScript)
    ensures SameCounts(s, EnsureFolder(s, folder, f).s)
  {
  }

  lemma MarkCounts(s: State, c: Settings, folder: Id)
    ensures SameCounts(s, MarkedDone(s, c, folder))
  {
  }

  lemma SameOn(s: State, t: State, u: State, pool: Pool, lo: nat, hi: nat)
    requires Accounts(s, t, pool, lo, hi) && SameCounts(t, u)
    ensures Accounts(s, u, pool, lo, hi)
  {
  }

  lemma FolderAccounts(s: State, c: Settings, folder: Id, entries: seq<Entry>, f: FolderScript, pool: Pool, lo: nat,
                       hi: nat)
    requires Decodes(pool, lo, hi) && ChunksIn(f.chunks, pool)
    ensures Accounts(s, OneFolder(s, c, folder, entries, f).s, pool, lo, hi)
  {
    SameAccounts(s, s, pool, lo, hi);
    var e := EnsureFolder(s, folder, f);
    EnsureCounts(s, folder, f);
    SameOn(s, s, e.s, pool, lo, hi);
    var r := FolderItems(e.s, c, folder, entries, e.dst, f);
    ItemsAccounts(e.s, c, folder, entries, e.dst, f, pool, lo, hi);
    AccountsOn(s, e.s, r.s, pool, lo, hi);
    var d := MarkedDone(r.s, c, folder);
    MarkCounts(r.s, c, folder);
    SameOn(s, r.s, d, pool, lo, hi);
    BeatAccounts(s, d, f.beat, c.flushSize, pool, lo, hi);
  }

  lemma {:induction false} CopyFoldersAccounts(s: State, c: Settings, src: Source, folders: seq<Id>, i: nat,
                                              script: nat -> FolderScript, pool: Pool, lo: nat, hi: nat)
    requires i <= |folders| && Decodes(pool, lo, hi) && FoldersIn(script, pool)
    ensures Accounts(s, CopyFolders(s, c, src, folders, i, script).s, pool, lo, hi)
    decreases |folders| - i
  {
    if i == |folders| || s.cancelled || script(i).stop {
      SameAccounts(s, s, pool, lo, hi);
    } else {
      var r := OneFolder(s, c, folders[i], src.entries(folders[i]), script(i));
      assert ChunksIn(script(i).chunks, pool);
      FolderAccounts(s, c, folders[i], src.entries(folders[i]), script(i), pool, lo, hi);
      if r.exit == Go {
        CopyFoldersAccounts(r.s, c, src, folders, i + 1, script, pool, lo, hi);
        AccountsOn(s, r.s, CopyFolders(r.s, c, src, folders, i + 1, script).s, pool, lo, hi);
      }
    }
  }

  lemma MailboxAccounts(s: State, c: Settings, src: Source, folders: seq<Id>, m: MailboxScript, pool: Pool, lo: nat,
                        hi: nat)
    requires Decodes(pool, lo, hi) && FoldersIn(m.folders, pool)
    ensures Accounts(s, OneMailbox(s, c, src, folders, m).s, pool, lo, hi)
  {
    SameAccounts(s, s, pool, lo, hi);
    var r := CopyFolders(s, c, src, folders, 0, m.folders);
    CopyFoldersAccounts(s, c, src, folders, 0, m.folders, pool, lo, hi);
    MailboxCounts(s, c, src, folders, m);
    SameOn(s, if m.enumeration == Ok then r.s else s, OneMailbox(s, c, src, folders, m).s, pool, lo, hi);
  }

  lemma MailboxCounts(s: State, c: Settings, src: Source, folders: seq<Id>, m: MailboxScript)
    ensures SameCounts(if m.enumeration == Ok then CopyFolders(s, c, src, folders, 0, m.folders).s else s,
                       OneMailbox(s, c, src, folders, m).s)
  {
  }

  lemma {:induction false} CopyMailboxesAccounts(s: State, c: Settings, src: Source, i: nat,
                                                 script: nat -> MailboxScript, pool: Pool, lo: nat, hi: nat)
    requires i <= |src.mailboxes| && Decodes(pool, lo, hi) && MailboxesIn(script, pool)
    ensures Accounts(s, CopyMailboxes(s, c, src, i, script).s, pool, lo, hi)
    decreases |src.mailboxes| - i
  {
    if i == |src.mailboxes| || s.cancelled || script(i).stop {
      SameAccounts(s, s, pool, lo, hi);
    } else if !src.mailboxes[i].matched {
      CopyMailboxesAccounts(s, c, src, i + 1, script, pool, lo, hi);
    } else {
      var r := OneMailbox(s, c, src, src.mailboxes[i].folders, script(i));
      assert FoldersIn(script(i).folders, pool);
      MailboxAccounts(s, c, src, src.mailboxes[i].folders, script(i), pool, lo, hi);
      if r.exit == Go {
        CopyMailboxesAccounts(r.s, c, src, i + 1, script, pool, lo, hi);
        AccountsOn(s, r.s, CopyMailboxes(r.s, c, src, i + 1, script).s, pool, lo, hi);
      }
    }
  }

  /** The entries of the responses a run may get. */
  ghost predicate InResponse(script: Script, e: ExportEntry) {
    exists i: nat, j: nat, k: nat :: e in script.mailboxes(i).folders(j).chunks(k).entries
  }

  ghost predicate GivenGood(script: Script, item: Id) {
    exists e :: InResponse(script, e) && Good(e) && e.item == Some(item)
  }

  ghost predicate RecordedFor(script: Script, r: Record) {
    exists e :: InResponse(script, e) && Explains(e, r)
  }

  lemma LoadedAccounts(s: State, c: Settings, src: Source, script: Script, pool: Pool, lo: nat, hi: nat)
    requires Decodes(pool, lo, hi) && MailboxesIn(script.mailboxes, pool)
    ensures Accounts(Loaded(s), Run(Loaded(s), c, src, script).s, pool, lo, hi)
  {
    var l := Loaded(s);
    SameAccounts(l, l, pool, lo, hi);
    CopyMailboxesAccounts(l, c, src, 0, script.mailboxes, pool, lo, hi);
    ClosingCounts(CopyMailboxes(l, c, src, 0, script.mailboxes).s, script);
  }

  lemma ClosingCounts(s: State, script: Script)
    ensures SameCounts(s, Closing(s, script).s)
  {
  }

  /**
   * However a run ends, each of its imports is of an entry some response gave as good, each record it
   * logged is SKIPPED for an entry that was not and FAILED for one that was, and its byte counter is the
   * persisted one and what its imports decode to: `lo` to `hi` bytes each, if every good entry does.
   */
  lemma RunAccounts(s: State, c: Settings, src: Source, script: Script, lo: nat, hi: nat)
    requires forall e | InResponse(script, e) && Good(e) :: 4 * lo <= 3 * e.size < 4 * hi + 4
    ensures
      var t := Run(Loaded(s), c, src, script).s;
      && s.imports <= t.imports
      && Weighed(t.bytes - s.persisted.bytes, |t.imports| - |s.imports|, lo, hi)
      && (forall k | |s.imports| <= k < |t.imports| :: GivenGood(script, t.imports[k].item))
      && (forall k | 0 <= k < |t.logged| :: RecordedFor(script, t.logged[k]))
  {
    var pool: Pool, t := e => InResponse(script, e), Run(Loaded(s), c, src, script).s;
    AllIn(script, pool);
    LoadedAccounts(s, c, src, script, pool, lo, hi);
    forall k | 0 <= k < |t.logged|
      ensures RecordedFor(script, t.logged[k])
    {
      assert ExplainedIn(pool, t.logged[k]);
      var e :| pool(e) && Explains(e, t.logged[k]);
      assert InResponse(script, e);
    }
    forall k | |s.imports| <= k < |t.imports|
      ensures GivenGood(script, t.imports[k].item)
    {
      assert ExportedIn(pool, t.imports[k].item);
      var e :| pool(e) && Good(e) && e.item == Some(t.imports[k].item);
      assert InResponse(script, e);
    }
  }

  lemma AllIn(script: Script, pool: Pool)
    requires forall e :: pool(e) <==> InResponse(script, e)
    ensures MailboxesIn(script.mailboxes, pool)
  {
  }

  // ----- how a run ends -----

  /**
   * A run returns COMPLETED just when its requests before and after the mailboxes are all answered and no
   * mailbox stops or raises.
   */
  lemma CompletedIff(s: State, c: Settings, src: Source, script: Script)
    ensures
      var r := CopyMailboxes(s, c, src, 0, script.mailboxes);
      ReturnsCompleted(Run(s, c, src, script)) <==>
      && script.opening == Ok && script.resolution == Ok && r.exit == Go && !r.stopped
      && (r.s.buffer == [] || script.closingItems == Ok) && script.closingProgress == Ok && script.closingFlush == Ok
  {
  }

  /** A closing report that is not answered ends the run with its own error, and the checkpoint is not written. */
  lemma UnreportedEnd(s: State, c: Settings, src: Source, script: Script)
    requires
      var r := CopyMailboxes(s, c, src, 0, script.mailboxes);
      r.exit == Go && !r.stopped && (r.s.buffer == [] || script.closingItems == Ok)
    requires script.opening == Ok && script.resolution == Ok && script.closingProgress != Ok
    ensures
      var t := Run(s, c, src, script);
      && t.exit == ControlExit(script.closingProgress) && !t.stopped && t.s.buffer == []
      && t.s.persisted == CopyMailboxes(s, c, src, 0, script.mailboxes).s.persisted
  {
  }

  /** A process killed in its last write persists the pass just when the write got through. */
  lemma KilledInLastWrite(s: State, c: Settings, src: Source, script: Script, applied: bool)
    requires
      var r := CopyMailboxes(s, c, src, 0, script.mailboxes);
      r.exit == Go && !r.stopped && (r.s.buffer == [] || script.closingItems == Ok)
    requires script.opening == Ok && script.resolution == Ok && script.closingProgress == Ok
    requires script.closingFlush == Kill(applied)
    ensures
      var q := CopyMailboxes(s, c, src, 0, script.mailboxes).s;
      var t := Run(s, c, src, script);
      t.exit == Killed && t.s.persisted == if applied then q.cp else q.persisted
  {
  }
}
