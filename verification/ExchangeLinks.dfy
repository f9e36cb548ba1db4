/**
 * The folder link of a mailbox pass: which mailbox's feed link the checkpoint holds, in memory and
 * persisted, however a handling ends.
 */
module ExchangeLinks {
  import opened Wrappers
  import opened Replies
  import opened Exchange
  import opened ExchangeProofs

  // ----- when a folder loop sees a stop -----

  /** Whether the pass is cancelled when the loop comes to folder `j`. */
  function CancelledAt(c: Settings, src: Source, folders: seq<Id>, i: nat, j: nat, script: nat -> FolderScript,
                       done: seq<Id>, cancelled: bool): bool
    requires i <= j <= |folders|
    decreases j - i
  {
    if i == j then cancelled
    else
      var r := FolderFlow(c, folders[i], src.entries(folders[i]), script(i), done, cancelled);
      CancelledAt(c, src, folders, i + 1, j, script, r.done, r.cancelled)
  }

  /** The loop is stopped exactly if it comes to some folder, the last included, under a stop or a cancellation. */
  lemma {:induction false} StoppedIff(c: Settings, src: Source, folders: seq<Id>, i: nat, script: nat -> FolderScript,
                                      done: seq<Id>, cancelled: bool)
    requires i <= |folders|
    ensures
      FoldersFlow(c, src, folders, i, script, done, cancelled).stopped <==>
      exists j :: i <= j < |folders| && (script(j).stop || CancelledAt(c, src, folders, i, j, script, done, cancelled))
    decreases |folders| - i
  {
    if i < |folders| {
      if cancelled || script(i).stop {
        assert script(i).stop || CancelledAt(c, src, folders, i, i, script, done, cancelled);
      } else {
        var r := FolderFlow(c, folders[i], src.entries(folders[i]), script(i), done, cancelled);
        StoppedIff(c, src, folders, i + 1, script, r.done, r.cancelled);
        assert forall j | i < j < |folders| ::
          CancelledAt(c, src, folders, i, j, script, done, cancelled) ==
          CancelledAt(c, src, folders, i + 1, j, script, r.done, r.cancelled);
      }
    }
  }

  // ----- the mailboxes walked to the end -----

  /** What the mailbox loop comes to position `n` with; `ended`: it has seen a stop between two mailboxes. */
  datatype Come = Come(done: seq<Id>, cancelled: bool, ended: bool)

  function ComeTo(c: Settings, src: Source, n: nat, script: nat -> MailboxScript, done: seq<Id>): Come
    requires n <= |src.mailboxes|
  {
    if n == 0 then Come(done, false, false)
    else
      var p := ComeTo(c, src, n - 1, script, done);
      var m := src.mailboxes[n - 1];
      if p.ended || p.cancelled || script(n - 1).stop then p.(ended := true)
      else if !m.matched then p
      else
        var f := FoldersFlow(c, src, m.folders, 0, script(n - 1).folders, p.done, p.cancelled);
        Come(f.done, f.cancelled, false)
  }

  /** The loop comes to mailbox `i`, and sees no stop and no cancellation up to its last folder. */
  predicate WalkedWhole(c: Settings, src: Source, i: nat, script: nat -> MailboxScript, done: seq<Id>)
    requires i < |src.mailboxes|
  {
    var p := ComeTo(c, src, i, script, done);
    && src.mailboxes[i].matched && !p.ended && !p.cancelled && !script(i).stop
    && !FoldersFlow(c, src, src.mailboxes[i].folders, 0, script(i).folders, p.done, p.cancelled).stopped
  }

  /** Its feed brought a link as well. */
  predicate GivesLink(c: Settings, src: Source, i: nat, script: nat -> MailboxScript, done: seq<Id>)
    requires i < |src.mailboxes|
  {
    WalkedWhole(c, src, i, script, done) && script(i).folderLink.Some?
  }

  /** The link given last among the first `n` mailboxes, or the one there was. */
  function LinkTo(c: Settings, src: Source, n: nat, script: nat -> MailboxScript, done: seq<Id>, link: Option<string>):
    Option<string>
    requires n <= |src.mailboxes|
  {
    if n == 0 then link
    else if GivesLink(c, src, n - 1, script, done) then script(n - 1).folderLink
    else LinkTo(c, src, n - 1, script, done, link)
  }

  lemma {:induction false} LinkIsLast(c: Settings, src: Source, n: nat, script: nat -> MailboxScript, done: seq<Id>,
                                      link: Option<string>)
    requires n <= |src.mailboxes|
    ensures
      var now := LinkTo(c, src, n, script, done, link);
      || (now == link && forall i | 0 <= i < n :: !GivesLink(c, src, i, script, done))
      || exists i :: 0 <= i < n && GivesLink(c, src, i, script, done) && now == script(i).folderLink
                     && forall j | i < j < n :: !GivesLink(c, src, j, script, done)
  {
    if n > 0 {
      LinkIsLast(c, src, n - 1, script, done, link);
    }
  }

  /** Once the loop has seen a stop between two mailboxes nothing gives a link. */
  lemma {:induction false} EndedStays(c: Settings, src: Source, i: nat, n: nat, script: nat -> MailboxScript,
                                      done: seq<Id>, link: Option<string>)
    requires i <= n <= |src.mailboxes|
    requires ComeTo(c, src, i, script, done).ended || ComeTo(c, src, i, script, done).cancelled || script(i).stop
    ensures LinkTo(c, src, n, script, done, link) == LinkTo(c, src, i, script, done, link)
    ensures n > i ==> ComeTo(c, src, n, script, done).ended
    decreases n - i
  {
    if i < n {
      EndedStays(c, src, i, n - 1, script, done, link);
    }
  }

  // ----- nothing but the end of a mailbox touches the link -----

  /** The link in memory is untouched, and what is persisted is what was, or the link in memory. */
  predicate LinkUntouched(s: State, t: State) {
    && t.cp.folderLink == s.cp.folderLink
    && (t.persisted.folderLink == s.persisted.folderLink || t.persisted.folderLink == s.cp.folderLink)
  }

  lemma ChunkThenBeatLink(s: State, c: Settings, ids: seq<Id>, dst: Id, ch: ChunkScript)
    ensures LinkUntouched(s, ChunkThenBeat(s, c, ids, dst, ch).s)
  {
    OneChunkKeeps(s, c, ids, dst, ch);
    HeartbeatFrame(OneChunk(s, c, ids, dst, ch).s, ch.beat, c.flushSize);
  }

  lemma {:induction false} CopyChunksLink(s: State, c: Settings, chunks: seq<seq<Id>>, k: nat, dst: Id,
                                          script: nat -> ChunkScript)
    requires k <= |chunks|
    ensures LinkUntouched(s, CopyChunks(s, c, chunks, k, dst, script).s)
    decreases |chunks| - k
  {
    if k < |chunks| && !s.cancelled && !script(k).stop {
      var r := ChunkThenBeat(s, c, chunks[k], dst, script(k));
      ChunkThenBeatLink(s, c, chunks[k], dst, script(k));
      if r.exit == Go {
        CopyChunksLink(r.s, c, chunks, k + 1, dst, script);
      }
    }
  }

  lemma OneFolderLink(s: State, c: Settings, folder: Id, entries: seq<Entry>, f: FolderScript)
    ensures LinkUntouched(s, OneFolder(s, c, folder, entries, f).s)
  {
    var e := EnsureFolder(s, folder, f);
    EnsureFrame(s, folder, f);
    CopyChunksLink(e.s, c, Chunks(Added(entries), MAX_EXPORT_BATCH), 0, e.dst, f.chunks);
    var r := FolderItems(e.s, c, folder, entries, e.dst, f);
    assert LinkUntouched(e.s, r.s);
    HeartbeatFrame(MarkedDone(r.s, c, folder), f.beat, c.flushSize);
  }

  lemma {:induction false} CopyFoldersLink(s: State, c: Settings, src: Source, folders: seq<Id>, i: nat,
                                           script: nat -> FolderScript)
    requires i <= |folders|
    ensures LinkUntouched(s, CopyFolders(s, c, src, folders, i, script).s)
    decreases |folders| - i
  {
    if i < |folders| && !s.cancelled && !script(i).stop {
      var r := OneFolder(s, c, folders[i], src.entries(folders[i]), script(i));
      OneFolderLink(s, c, folders[i], src.entries(folders[i]), script(i));
      if r.exit == Go {
        CopyFoldersLink(r.s, c, src, folders, i + 1, script);
      }
    }
  }

  lemma OneMailboxLink(s: State, c: Settings, src: Source, folders: seq<Id>, m: MailboxScript)
    ensures
      var r := OneMailbox(s, c, src, folders, m);
      var f := FoldersFlow(c, src, folders, 0, m.folders, s.cp.foldersDone, s.cancelled);
      && (r.s.persisted.folderLink == s.persisted.folderLink || r.s.persisted.folderLink == s.cp.folderLink)
      && r.s.cp.folderLink ==
         (if r.exit == Go && !f.stopped && m.folderLink.Some? then m.folderLink else s.cp.folderLink)
      && (r.exit == Go ==> r.s.cp.foldersDone == f.done && r.s.cancelled == f.cancelled)
  {
    CopyFoldersLink(s, c, src, folders, 0, m.folders);
    if m.enumeration == Ok && CopyFolders(s, c, src, folders, 0, m.folders).exit == Go {
      CopyFoldersFrame(s, c, src, folders, 0, m.folders);
    }
  }

  // ----- the mailbox loop -----

  /** A persisted link that was the link in memory at some point of the loop. */
  predicate WasLink(c: Settings, src: Source, n: nat, script: nat -> MailboxScript, done: seq<Id>, link: Option<string>,
                    persisted: Option<string>)
    requires n <= |src.mailboxes|
  {
    exists m: nat :: m <= n && persisted == LinkTo(c, src, m, script, done, link)
  }

  /** The loop has come to position `i` in state `q`. */
  predicate AtMailbox(q: State, c: Settings, src: Source, i: nat, script: nat -> MailboxScript, done: seq<Id>,
                      link: Option<string>)
    requires i <= |src.mailboxes|
  {
    && ComeTo(c, src, i, script, done) == Come(q.cp.foldersDone, q.cancelled, false)
    && q.cp.folderLink == LinkTo(c, src, i, script, done, link)
    && WasLink(c, src, i, script, done, link, q.persisted.folderLink)
  }

  /** How the loop leaves the links; `n` is where it ends: at a mailbox that raised, or behind the last. */
  predicate LeavesLinks(r: LoopResult, c: Settings, src: Source, n: nat, script: nat -> MailboxScript, done: seq<Id>,
                        link: Option<string>)
    requires n <= |src.mailboxes|
  {
    && r.s.cp.folderLink == LinkTo(c, src, n, script, done, link)
    && WasLink(c, src, n, script, done, link, r.s.persisted.folderLink)
    && (r.exit == Go ==> n == |src.mailboxes|)
  }

  lemma WasLinkOn(c: Settings, src: Source, m: nat, n: nat, script: nat -> MailboxScript, done: seq<Id>,
                  link: Option<string>, persisted: Option<string>)
    requires m <= n <= |src.mailboxes| && WasLink(c, src, m, script, done, link, persisted)
    ensures WasLink(c, src, n, script, done, link, persisted)
  {
    var k: nat :| k <= m && persisted == LinkTo(c, src, k, script, done, link);
  }

  lemma StopLeaves(q: State, c: Settings, src: Source, i: nat, script: nat -> MailboxScript, done: seq<Id>,
                   link: Option<string>)
    requires i < |src.mailboxes| && AtMailbox(q, c, src, i, script, done, link) && (q.cancelled || script(i).stop)
    ensures LeavesLinks(LoopResult(q, Go, true), c, src, |src.mailboxes|, script, done, link)
  {
    EndedStays(c, src, i, |src.mailboxes|, script, done, link);
    WasLinkOn(c, src, i, |src.mailboxes|, script, done, link, q.persisted.folderLink);
  }

  lemma MailboxStep(q: State, c: Settings, src: Source, i: nat, script: nat -> MailboxScript, done: seq<Id>,
                    link: Option<string>)
    requires i < |src.mailboxes| && AtMailbox(q, c, src, i, script, done, link)
    requires src.mailboxes[i].matched && !q.cancelled && !script(i).stop
    ensures
      var r := OneMailbox(q, c, src, src.mailboxes[i].folders, script(i));
      if r.exit == Go then AtMailbox(r.s, c, src, i + 1, script, done, link)
      else LeavesLinks(LoopResult(r.s, r.exit, false), c, src, i, script, done, link)
  {
    var r := OneMailbox(q, c, src, src.mailboxes[i].folders, script(i));
    OneMailboxLink(q, c, src, src.mailboxes[i].folders, script(i));
    assert WasLink(c, src, i, script, done, link, q.cp.folderLink);
    assert WasLink(c, src, i, script, done, link, r.s.persisted.folderLink);
    WasLinkOn(c, src, i, i + 1, script, done, link, r.s.persisted.folderLink);
  }

  lemma {:induction false} CopyMailboxesLink(q: State, c: Settings, src: Source, i: nat, script: nat -> MailboxScript,
                                             done: seq<Id>, link: Option<string>) returns (n: nat)
    requires i <= |src.mailboxes| && AtMailbox(q, c, src, i, script, done, link)
    ensures n <= |src.mailboxes| && LeavesLinks(CopyMailboxes(q, c, src, i, script), c, src, n, script, done, link)
    decreases |src.mailboxes| - i
  {
    n := |src.mailboxes|;
    if i < |src.mailboxes| {
      if q.cancelled || script(i).stop {
        StopLeaves(q, c, src, i, script, done, link);
      } else if !src.mailboxes[i].matched {
        WasLinkOn(c, src, i, i + 1, script, done, link, q.persisted.folderLink);
        n := CopyMailboxesLink(q, c, src, i + 1, script, done, link);
      } else {
        var r := OneMailbox(q, c, src, src.mailboxes[i].folders, script(i));
        MailboxStep(q, c, src, i, script, done, link);
        if r.exit == Go {
          n := CopyMailboxesLink(r.s, c, src, i + 1, script, done, link);
        } else {
          n := i;
        }
      }
    }
  }

  // ----- runs and handlings -----

  /** The link after the first `n` mailboxes of a handling from the persisted checkpoint. */
  function LinkAfter(s: State, c: Settings, src: Source, n: nat, script: Script): Option<string>
    requires n <= |src.mailboxes|
  {
    LinkTo(c, src, n, script.mailboxes, s.persisted.foldersDone, s.persisted.folderLink)
  }

  lemma BeginsAtFirst(s: State, c: Settings, src: Source, script: Script)
    ensures AtMailbox(Loaded(s), c, src, 0, script.mailboxes, s.persisted.foldersDone, s.persisted.folderLink)
  {
    assert LinkAfter(s, c, src, 0, script) == s.persisted.folderLink;
  }

  /** A run that returns has the link of the last mailbox that it walked to the end and whose feed gave one. */
  lemma ReturnedLink(s: State, c: Settings, src: Source, script: Script)
    requires Run(Loaded(s), c, src, script).exit == Go
    ensures Run(Loaded(s), c, src, script).s.cp.folderLink == LinkAfter(s, c, src, |src.mailboxes|, script)
  {
    BeginsAtFirst(s, c, src, script);
    var n := CopyMailboxesLink(Loaded(s), c, src, 0, script.mailboxes, s.persisted.foldersDone, s.persisted.folderLink);
  }

  /** However a handling ends, what it persists is the link at some point of its mailbox loop. */
  lemma PersistedLink(s: State, c: Settings, src: Source, script: Script) returns (n: nat)
    ensures n <= |src.mailboxes|
    ensures Handled(s, c, src, script).s.persisted.folderLink == LinkAfter(s, c, src, n, script)
  {
    BeginsAtFirst(s, c, src, script);
    var k := CopyMailboxesLink(Loaded(s), c, src, 0, script.mailboxes, s.persisted.foldersDone, s.persisted.folderLink);
    var r := CopyMailboxes(Loaded(s), c, src, 0, script.mailboxes);
    n := FlushedLink(s, c, src, script, k, r);
  }

  /** The flushes at the end persist the link in memory or leave what is persisted. */
  lemma FlushedLink(s: State, c: Settings, src: Source, script: Script, k: nat, r: LoopResult) returns (n: nat)
    requires k <= |src.mailboxes| && r == CopyMailboxes(Loaded(s), c, src, 0, script.mailboxes)
    requires LeavesLinks(r, c, src, k, script.mailboxes, s.persisted.foldersDone, s.persisted.folderLink)
    ensures n <= |src.mailboxes|
    ensures Handled(s, c, src, script).s.persisted.folderLink == LinkAfter(s, c, src, n, script)
  {
    var t := Handled(s, c, src, script).s;
    EndPersists(s, c, src, script, r);
    if t.persisted.folderLink == s.persisted.folderLink {
      n := 0;
    } else if t.persisted.folderLink == r.s.cp.folderLink {
      n := k;
    } else {
      var done, link := s.persisted.foldersDone, s.persisted.folderLink;
      assert WasLink(c, src, k, script.mailboxes, done, link, r.s.persisted.folderLink);
      var m: nat :| m <= k && r.s.persisted.folderLink == LinkTo(c, src, m, script.mailboxes, done, link);
      n := m;
    }
  }

  lemma EndPersists(s: State, c: Settings, src: Source, script: Script, r: LoopResult)
    requires r == CopyMailboxes(Loaded(s), c, src, 0, script.mailboxes)
    ensures
      var link := Handled(s, c, src, script).s.persisted.folderLink;
      link == s.persisted.folderLink || link == r.s.cp.folderLink || link == r.s.persisted.folderLink
  {
  }

  /**
   * Exactly: a returning run holds another link than it loaded if and only if some mailbox was walked to
   * the end and gave one, the last of them another than the loaded one; and a handling, however it ends,
   * persists another link only if some mailbox was walked to the end and gave it.
   */
  lemma LinkChangesIff(s: State, c: Settings, src: Source, script: Script)
    ensures
      var link := s.persisted.folderLink;
      var r := Run(Loaded(s), c, src, script);
      r.exit == Go ==>
      (r.s.cp.folderLink != link <==>
       exists i :: 0 <= i < |src.mailboxes| && LastLink(s, c, src, i, script) && script.mailboxes(i).folderLink != link)
    ensures
      var link := Handled(s, c, src, script).s.persisted.folderLink;
      link != s.persisted.folderLink ==>
      exists i :: 0 <= i < |src.mailboxes| && link == script.mailboxes(i).folderLink
                  && GivesLink(c, src, i, script.mailboxes, s.persisted.foldersDone)
  {
    var n := PersistedLink(s, c, src, script);
    LinkIsLast(c, src, n, script.mailboxes, s.persisted.foldersDone, s.persisted.folderLink);
    if Run(Loaded(s), c, src, script).exit == Go {
      ReturnedLink(s, c, src, script);
      LinkIsLast(c, src, |src.mailboxes|, script.mailboxes, s.persisted.foldersDone, s.persisted.folderLink);
      LastIsOne(s, c, src, script);
    }
  }

  /** Mailbox `i` gives a link and no later one does. */
  predicate LastLink(s: State, c: Settings, src: Source, i: nat, script: Script)
    requires i < |src.mailboxes|
  {
    && GivesLink(c, src, i, script.mailboxes, s.persisted.foldersDone)
    && forall j | i < j < |src.mailboxes| :: !GivesLink(c, src, j, script.mailboxes, s.persisted.foldersDone)
  }

  lemma LastIsOne(s: State, c: Settings, src: Source, script: Script)
    ensures forall i, j | 0 <= i < j < |src.mailboxes| ::
              !(LastLink(s, c, src, i, script) && LastLink(s, c, src, j, script))
  {
  }
}
