/**
 * What becomes of a file whose copy fails: the first try that is not worth repeating settles it, and a
 * fatal one ends the run and names the job's status.
 */
module OneDriveFates {
  import opened Jobs
  import opened Replies
  import opened OneDrive
  import opened OneDriveProofs
  import Protocol

  // ----- one file -----

  predicate Repeated(a: Attempt) {
    a.Transient?
  }

  /** The least try within the budget that is not repeated. */
  predicate SettledBy(c: Settings, attempts: nat -> Attempt, n: nat) {
    n <= c.maxRetries && !Repeated(attempts(n)) && forall j | 0 <= j < n :: Repeated(attempts(j))
  }

  predicate NeverSettled(c: Settings, attempts: nat -> Attempt) {
    forall j: nat | j <= c.maxRetries :: Repeated(attempts(j))
  }

  /** Whether the last try of a spent budget was a rejected token. */
  predicate LastRejected(c: Settings, attempts: nat -> Attempt) {
    c.maxRetries >= 0 && attempts(c.maxRetries) == Transient(true)
  }

  lemma {:induction false} SettledFrom(s: State, c: Settings, file: Item, attempts: nat -> Attempt, k: nat, auth: bool,
                                       n: nat)
    requires SettledBy(c, attempts, n) && k <= n
    ensures
      var last := if k == n then auth else attempts(n - 1).auth;
      Copy(s, c, file, attempts, k, auth) == Copy(s, c, file, attempts, n, last)
    decreases n - k
  {
    if k < n {
      SettledFrom(s, c, file, attempts, k + 1, attempts(k).auth, n);
    }
  }

  lemma {:induction false} NeverFrom(s: State, c: Settings, file: Item, attempts: nat -> Attempt, k: nat, auth: bool)
    requires NeverSettled(c, attempts)
    ensures
      var rejected := if k <= c.maxRetries then attempts(c.maxRetries).auth else auth;
      Copy(s, c, file, attempts, k, auth) ==
        if rejected then CopyResult(false, s, Raised(Graph(AuthExpired)))
        else CopyResult(false, s.(buffer := s.buffer + [file.id]), Go)
    decreases c.maxRetries + 1 - k
  {
    if k <= c.maxRetries {
      NeverFrom(s, c, file, attempts, k + 1, attempts(k).auth);
    }
  }

  /** How a try that is not repeated ends the copy, if it does not go on. */
  function EndOf(a: Attempt): Exit {
    match a
    case Fatal(st) => Raised(Graph(st))
    case Unexpected => Raised(Other)
    case Dead => Killed
    case _ => Go
  }

  /**
   * The fate of a file by its first settling try: a success is one upload under the image of its parent,
   * and anything else ends the run with nothing copied and nothing recorded.
   */
  lemma SettledFate(s: State, c: Settings, file: Item, attempts: nat -> Attempt, n: nat)
    requires SettledBy(c, attempts, n)
    ensures
      var r := Copy(s, c, file, attempts, 0, false);
      && r.ok == attempts(n).Succeeded? && r.exit == EndOf(attempts(n))
      && r.s == if r.ok then s.(uploads := s.uploads + [Upload(file.id, DstParent(s, c, file))]) else s
  {
    SettledFrom(s, c, file, attempts, 0, false, n);
  }

  /** And with no settling try in the budget: AUTH_EXPIRED if the last was a rejected token, otherwise one record. */
  lemma UnsettledFate(s: State, c: Settings, file: Item, attempts: nat -> Attempt)
    requires NeverSettled(c, attempts)
    ensures
      var r := Copy(s, c, file, attempts, 0, false);
      !r.ok &&
      if LastRejected(c, attempts) then r.exit == Raised(Graph(AuthExpired)) && r.s == s
      else r.exit == Go && r.s == s.(buffer := s.buffer + [file.id])
  {
    NeverFrom(s, c, file, attempts, 0, false);
  }

  /** One of the two is the case. */
  lemma {:induction false} SettledOrNot(c: Settings, attempts: nat -> Attempt, k: nat)
    requires forall j | 0 <= j < k :: Repeated(attempts(j))
    ensures NeverSettled(c, attempts) || exists n: nat :: SettledBy(c, attempts, n)
    decreases c.maxRetries + 1 - k
  {
    if k <= c.maxRetries {
      if Repeated(attempts(k)) {
        SettledOrNot(c, attempts, k + 1);
      } else {
        assert SettledBy(c, attempts, k);
      }
    }
  }

  // ----- the file loop -----

  /** The tries end the run in this way. */
  ghost predicate Ends(c: Settings, attempts: nat -> Attempt, e: Exit) {
    e != Go &&
    ((exists n: nat :: SettledBy(c, attempts, n) && EndOf(attempts(n)) == e)
     || (NeverSettled(c, attempts) && LastRejected(c, attempts) && e == Raised(Graph(AuthExpired))))
  }

  lemma CopyEnds(s: State, c: Settings, file: Item, attempts: nat -> Attempt, e: Exit)
    requires e != Go
    ensures Copy(s, c, file, attempts, 0, false).exit == e <==> Ends(c, attempts, e)
  {
    SettledOrNot(c, attempts, 0);
    if n: nat :| SettledBy(c, attempts, n) {
      SettledFate(s, c, file, attempts, n);
      forall m: nat | SettledBy(c, attempts, m) ensures m == n {
      }
    } else {
      UnsettledFate(s, c, file, attempts);
    }
  }

  /** The state in which the loop comes to position `n`. */
  function Before(s: State, c: Settings, files: seq<Item>, i: nat, n: nat, script: Script): State
    requires i <= n <= |files|
    decreases n - i
  {
    if i == n then s else Before(OneFile(s, c, files[i], script.files(i)).s, c, files, i + 1, n, script)
  }

  /** The loop comes to a file that is not done, and its tries end the run in this way. */
  ghost predicate Meets(s: State, c: Settings, files: seq<Item>, i: nat, n: nat, script: Script, e: Exit)
    requires i <= n <= |files|
  {
    n < |files| &&
    var q := Before(s, c, files, i, n, script);
    !q.cancelled && !script.files(n).stop && files[n].id !in q.done && Ends(c, script.files(n).attempts, e)
  }

  lemma HeartbeatNoGraph(s: State, b: Beat, flushSize: nat)
    ensures var e := Heartbeat(s, b, flushSize).exit; !(e.Raised? && e.exn.Graph?)
  {
  }

  lemma OneFileGraph(s: State, c: Settings, file: Item, f: FileScript, st: Status)
    ensures
      OneFile(s, c, file, f).exit == Raised(Graph(st)) <==>
      file.id !in s.done && Ends(c, f.attempts, Raised(Graph(st)))
  {
    CopyEnds(s, c, file, f.attempts, Raised(Graph(st)));
    var r := Copy(s, c, file, f.attempts, 0, false);
    HeartbeatNoGraph(if r.ok then Credited(r.s, file) else r.s, f.beat, c.flushSize);
  }

  /** The loop ends with a Graph error exactly if the file at which it ends meets that fate. */
  lemma {:induction false} FilesEnd(s: State, c: Settings, files: seq<Item>, i: nat, script: Script, st: Status)
    requires i <= |files|
    ensures
      CopyFiles(s, c, files, i, script).exit == Raised(Graph(st)) <==>
      Meets(s, c, files, i, Reached(s, c, files, i, script), script, Raised(Graph(st)))
    decreases |files| - i
  {
    if i < |files| && !s.cancelled && !script.files(i).stop {
      var r := OneFile(s, c, files[i], script.files(i));
      OneFileGraph(s, c, files[i], script.files(i), st);
      if r.exit == Go {
        FilesEnd(r.s, c, files, i + 1, script, st);
      }
    }
  }

  /** A loop that goes through has met no end on any file it reached. */
  lemma {:induction false} FilesGo(s: State, c: Settings, files: seq<Item>, i: nat, script: Script, n: nat, e: Exit)
    requires i <= |files| && i <= n < Reached(s, c, files, i, script)
    requires CopyFiles(s, c, files, i, script).exit == Go && e != Go
    ensures !Meets(s, c, files, i, n, script, e)
    decreases |files| - i
  {
    var r := OneFile(s, c, files[i], script.files(i));
    if n == i {
      CopyEnds(s, c, files[i], script.files(i).attempts, e);
    } else {
      FilesGo(r.s, c, files, i + 1, script, n, e);
    }
  }

  // ----- the whole run -----

  /** The state in which the file loop begins, if the folders were all created. */
  function FoldersDone(s: State, c: Settings, feed: seq<Item>, script: Script): FolderResult {
    CopyFolders(Rooted(Loaded(s), c), c, ByDepth(Folders(feed)), 0, script)
  }

  predicate ComesToFiles(s: State, c: Settings, feed: seq<Item>, script: Script) {
    && script.opening == Ok && script.resolution == Ok && script.enumeration == Ok
    && FoldersDone(s, c, feed, script).exit == Go && !FoldersDone(s, c, feed, script).stopped
  }

  /** A run that comes to the files raises a Graph error exactly if the file at which its loop ends meets it. */
  lemma RunEndsIff(s: State, c: Settings, feed: seq<Item>, script: Script, st: Status)
    requires ComesToFiles(s, c, feed, script)
    ensures
      var q := FoldersDone(s, c, feed, script).s;
      Run(Loaded(s), c, feed, script).exit == Raised(Graph(st)) <==>
      Meets(q, c, Files(feed), 0, Reached(q, c, Files(feed), 0, script), script, Raised(Graph(st)))
  {
    var q := FoldersDone(s, c, feed, script).s;
    FilesEnd(q, c, Files(feed), 0, script, st);
    ClosingFlushes(Body(Rooted(Loaded(s), c), c, feed, script).s, script);
  }

  /** A run that returns COMPLETED has met no fatal, unexpected or deadly try on any file it came to. */
  lemma CompletedMetNone(s: State, c: Settings, feed: seq<Item>, script: Script, n: nat, e: Exit)
    requires ComesToFiles(s, c, feed, script) && Run(Loaded(s), c, feed, script).exit == Go && e != Go
    requires n < Reached(FoldersDone(s, c, feed, script).s, c, Files(feed), 0, script)
    ensures !Meets(FoldersDone(s, c, feed, script).s, c, Files(feed), 0, n, script, e)
  {
    FilesGo(FoldersDone(s, c, feed, script).s, c, Files(feed), 0, script, n, e);
  }

  /** The handler then writes that status to the row. */
  lemma FatalNamesStatus(h: Protocol.State, st: Status)
    requires h.engine.Working? && h.engine.m.job in h.rows && Protocol.GraphStatus(st)
    ensures
      var t := Protocol.Apply(Protocol.Apply(h, Protocol.Raise(Graph(st))), Protocol.Await);
      && t.engine == Protocol.GraphFailing(h.engine.m, st) && t.rows == h.rows
      && Protocol.WriteDone(t, true, true).rows[h.engine.m.job].status == st
  {
    var u := Protocol.Apply(h, Protocol.Raise(Graph(st)));
    assert u.engine == Protocol.GraphFlushing(h.engine.m, st);
  }

  // ----- when the file loop stops -----

  lemma BeatCancels(s: State, b: Beat, flushSize: nat)
    ensures s.cancelled ==> Heartbeat(s, b, flushSize).s.cancelled
    ensures
      var h := Heartbeat(s, b, flushSize);
      h.exit == Go ==> (h.s.cancelled <==> s.cancelled || b.cancelSeen)
  {
  }

  lemma OneFileCancels(s: State, c: Settings, file: Item, f: FileScript)
    requires OneFile(s, c, file, f).exit == Go
    ensures OneFile(s, c, file, f).s.cancelled <==> s.cancelled || (file.id !in s.done && f.beat.cancelSeen)
  {
    CopyEffect(s, c, file, f.attempts, 0, false);
    var r := Copy(s, c, file, f.attempts, 0, false);
    BeatCancels(if r.ok then Credited(r.s, file) else r.s, f.beat, c.flushSize);
  }

  /** No file after one whose heartbeat saw a cancellation is looked at. */
  lemma {:induction false} CancelEnds(s: State, c: Settings, files: seq<Item>, i: nat, n: nat, script: Script)
    requires i <= |files| && i <= n < Reached(s, c, files, i, script) && CopyFiles(s, c, files, i, script).exit == Go
    requires files[n].id !in Before(s, c, files, i, n, script).done && script.files(n).beat.cancelSeen
    ensures Reached(s, c, files, i, script) == n + 1
    decreases n - i
  {
    OneFileCancels(s, c, files[i], script.files(i));
    if i < n {
      CancelEnds(OneFile(s, c, files[i], script.files(i)).s, c, files, i + 1, n, script);
    }
  }

  /** And a loop that returns before the last file has seen a stop there, or a cancellation before. */
  lemma {:induction false} WhyEnded(s: State, c: Settings, files: seq<Item>, i: nat, script: Script)
    requires i <= |files| && CopyFiles(s, c, files, i, script).exit == Go && Reached(s, c, files, i, script) < |files|
    ensures
      var n := Reached(s, c, files, i, script);
      script.files(n).stop || s.cancelled || exists m :: i <= m < n && script.files(m).beat.cancelSeen
    decreases |files| - i
  {
    if !s.cancelled && !script.files(i).stop {
      OneFileCancels(s, c, files[i], script.files(i));
      WhyEnded(OneFile(s, c, files[i], script.files(i)).s, c, files, i + 1, script);
    }
  }

  // ----- what waits and what is counted -----

  /** A heartbeat sends nothing before the flush size is reached, and if it goes on leaves fewer records than that. */
  lemma BeatSendsAtSize(s: State, b: Beat, flushSize: nat)
    ensures
      var h := Heartbeat(s, b, flushSize);
      && (h.exit == Go ==> h.s.buffer == if |s.buffer| >= flushSize then [] else s.buffer)
      && (|s.buffer| < flushSize ==> h.s.buffer == s.buffer && h.s.sent == s.sent)
  {
  }

  /** So between two files a crash can lose no more records than that. */
  lemma {:induction false} LoopKeepsFewWaiting(s: State, c: Settings, files: seq<Item>, i: nat, script: Script)
    requires i <= |files| && (s.buffer == [] || |s.buffer| < c.flushSize)
    requires CopyFiles(s, c, files, i, script).exit == Go
    ensures
      var t := CopyFiles(s, c, files, i, script).s;
      t.buffer == [] || |t.buffer| < c.flushSize
    decreases |files| - i
  {
    if i < |files| && !s.cancelled && !script.files(i).stop {
      var r := OneFile(s, c, files[i], script.files(i));
      if files[i].id !in s.done {
        var q := Copy(s, c, files[i], script.files(i).attempts, 0, false);
        BeatSendsAtSize(if q.ok then Credited(q.s, files[i]) else q.s, script.files(i).beat, c.flushSize);
      }
      LoopKeepsFewWaiting(r.s, c, files, i + 1, script);
    }
  }

  /** The sizes of the files the loop copies. */
  function SizeCopied(s: State, c: Settings, files: seq<Item>, i: nat, script: Script): int
    requires i <= |files|
    decreases |files| - i
  {
    if i == |files| || s.cancelled || script.files(i).stop then 0
    else
      var r := OneFile(s, c, files[i], script.files(i));
      (if r.s.uploads != s.uploads then files[i].size else 0)
      + if r.exit == Go then SizeCopied(r.s, c, files, i + 1, script) else 0
  }

  lemma OneFileBytes(s: State, c: Settings, file: Item, f: FileScript)
    ensures
      var t := OneFile(s, c, file, f).s;
      t.bytes == s.bytes + if t.uploads != s.uploads then file.size else 0
  {
    CopyEffect(s, c, file, f.attempts, 0, false);
    var r := Copy(s, c, file, f.attempts, 0, false);
    HeartbeatBytes(if r.ok then Credited(r.s, file) else r.s, f.beat, c.flushSize);
  }

  lemma HeartbeatBytes(s: State, b: Beat, flushSize: nat)
    ensures Heartbeat(s, b, flushSize).s.bytes == s.bytes && Heartbeat(s, b, flushSize).s.uploads == s.uploads
    ensures Heartbeat(s, b, flushSize).s.cp.bytes == s.bytes
  {
  }

  lemma {:induction false} LoopBytes(s: State, c: Settings, files: seq<Item>, i: nat, script: Script)
    requires i <= |files|
    ensures CopyFiles(s, c, files, i, script).s.bytes == s.bytes + SizeCopied(s, c, files, i, script)
    decreases |files| - i
  {
    if i < |files| && !s.cancelled && !script.files(i).stop {
      var r := OneFile(s, c, files[i], script.files(i));
      OneFileBytes(s, c, files[i], script.files(i));
      if r.exit == Go {
        LoopBytes(r.s, c, files, i + 1, script);
      }
    }
  }

  /** The byte counter of a run is the persisted one and the sizes of the files it copied. */
  lemma RunBytes(s: State, c: Settings, feed: seq<Item>, script: Script)
    requires ComesToFiles(s, c, feed, script)
    ensures
      var q := FoldersDone(s, c, feed, script).s;
      Run(Loaded(s), c, feed, script).s.bytes == s.persisted.bytes + SizeCopied(q, c, Files(feed), 0, script)
  {
    FoldersBytes(s, c, feed, script);
    LoopBytes(FoldersDone(s, c, feed, script).s, c, Files(feed), 0, script);
    RunIsLoop(s, c, feed, script);
  }

  lemma FoldersBytes(s: State, c: Settings, feed: seq<Item>, script: Script)
    ensures FoldersDone(s, c, feed, script).s.bytes == s.persisted.bytes
  {
    CopyFoldersFrame(Rooted(Loaded(s), c), c, ByDepth(Folders(feed)), 0, script);
    RootedBytes(Loaded(s), c);
  }

  lemma RootedBytes(s: State, c: Settings)
    ensures Rooted(s, c).bytes == s.bytes
  {
  }

  lemma BodyBytes(s: State, c: Settings, feed: seq<Item>, script: Script)
    requires script.enumeration.Ok?
    ensures Body(s, c, feed, script).s.bytes == ApplyFeed(s, c, feed, script).s.bytes
  {
  }

  lemma ClosingBytes(s: State, script: Script)
    ensures Closing(s, script).s.bytes == s.bytes
  {
  }

  lemma RunIsLoop(s: State, c: Settings, feed: seq<Item>, script: Script)
    requires ComesToFiles(s, c, feed, script)
    ensures
      var q := FoldersDone(s, c, feed, script).s;
      Run(Loaded(s), c, feed, script).s.bytes == CopyFiles(q, c, Files(feed), 0, script).s.bytes
  {
    var q := FoldersDone(s, c, feed, script).s;
    var b := Body(Rooted(Loaded(s), c), c, feed, script);
    BodyBytes(Rooted(Loaded(s), c), c, feed, script);
    ClosingBytes(b.s, script);
  }

  /** A mapped root keeps its image, any other is mapped to the destination's root, and nothing else changes. */
  lemma RootedKeeps(s: State, c: Settings)
    ensures
      var t := Rooted(s, c);
      && t == s.(cp := s.cp.(folderMap := t.cp.folderMap))
      && t.cp.folderMap.Keys == s.cp.folderMap.Keys + {c.srcRoot}
      && (forall x | x in s.cp.folderMap :: t.cp.folderMap[x] == s.cp.folderMap[x])
      && (c.srcRoot !in s.cp.folderMap ==> t.cp.folderMap[c.srcRoot] == c.dstRoot)
  {
  }
}
