/**
 * The folder tree survives resumes: every mapped folder hangs below the image of its source
 * parent, and every copied file lands under an image of its source folder.
 */
module OneDriveTree {
  import opened Wrappers
  import opened Replies
  import opened OneDrive
  import opened OneDriveProofs

  /**
   * The source tree: parents and depths of the folders below the root, and the folders of the files.  Nothing
   * moves.
   */
  datatype Source = Source(parent: map<Id, Id>, depth: map<Id, nat>, fileParent: map<Id, Id>)

  /** Walking up from a folder reaches the root, one depth at a time. */
  predicate WellFormed(src: Source, c: Settings) {
    && c.srcRoot !in src.parent
    && src.parent.Keys == src.depth.Keys
    && forall x | x in src.parent ::
         src.parent[x] == c.srcRoot || (src.parent[x] in src.depth && src.depth[src.parent[x]] < src.depth[x])
  }

  predicate Knows(src: Source, folder: Item) {
    && folder.id in src.parent && folder.id in src.depth
    && folder.parent == Some(src.parent[folder.id]) && Depth(folder.path) == src.depth[folder.id]
  }

  predicate KnowsFile(src: Source, file: Item) {
    file.id in src.fileParent && file.parent == Some(src.fileParent[file.id])
  }

  /** `x` is the root, already mapped, or a folder of this feed. */
  predicate Enumerated(x: Id, folders: seq<Item>, mapped: set<Id>, c: Settings) {
    x == c.srcRoot || x in mapped || exists f :: f in folders && f.id == x
  }

  /** A feed of the tree in which every parent is enumerated. */
  predicate FeedOf(src: Source, feed: seq<Item>, mapped: set<Id>, c: Settings) {
    && (forall f | f in Folders(feed) :: Knows(src, f) && Enumerated(f.parent.value, Folders(feed), mapped, c))
    && (forall f | f in Files(feed) :: KnowsFile(src, f) && Enumerated(f.parent.value, Folders(feed), mapped, c))
  }

  /** The destination answers with a child of the folder posted to, and a folder has one parent for good. */
  predicate Honest(dest: map<Id, Id>, parent: Id, newId: Id, c: Settings) {
    newId != c.dstRoot && (newId in dest ==> dest[newId] == parent)
  }

  // ----- the invariant -----

  /** Each mapped folder's image hangs below the image of its parent. */
  predicate TreeMap(fm: map<Id, Id>, dest: map<Id, Id>, src: Source, c: Settings) {
    forall x | x in fm ::
      if x == c.srcRoot then fm[x] == c.dstRoot
      else x in src.parent && src.parent[x] in fm && fm[x] in dest && dest[fm[x]] == fm[src.parent[x]]
  }

  /** Walking up from `d` in the destination and from `x` in the source reach the two roots together. */
  predicate Image(dest: map<Id, Id>, src: Source, c: Settings, x: Id, d: Id, steps: nat)
    decreases steps
  {
    if x == c.srcRoot then d == c.dstRoot
    else steps > 0 && x in src.parent && d in dest && Image(dest, src, c, src.parent[x], dest[d], steps - 1)
  }

  predicate HasImage(dest: map<Id, Id>, src: Source, c: Settings, x: Id, d: Id) {
    Image(dest, src, c, x, d, if x in src.depth then src.depth[x] + 1 else 0)
  }

  lemma {:induction false} ImageMore(dest: map<Id, Id>, src: Source, c: Settings, x: Id, d: Id, m: nat, n: nat)
    requires Image(dest, src, c, x, d, m) && m <= n
    ensures Image(dest, src, c, x, d, n)
    decreases m
  {
    if x != c.srcRoot {
      ImageMore(dest, src, c, src.parent[x], dest[d], m - 1, n - 1);
    }
  }

  /** A mapped folder's whole chain of ancestors is preserved. */
  lemma {:induction false} MappedHasImage(fm: map<Id, Id>, dest: map<Id, Id>, src: Source, c: Settings, x: Id)
    requires TreeMap(fm, dest, src, c) && WellFormed(src, c) && x in fm
    ensures HasImage(dest, src, c, x, fm[x])
    decreases if x in src.depth then src.depth[x] + 1 else 0
  {
    if x != c.srcRoot {
      var p := src.parent[x];
      MappedHasImage(fm, dest, src, c, p);
      var m := if p in src.depth then src.depth[p] + 1 else 0;
      ImageMore(dest, src, c, p, fm[p], m, src.depth[x]);
    }
  }

  lemma {:induction false} ImageStays(dest: map<Id, Id>, more: map<Id, Id>, src: Source, c: Settings, x: Id, d: Id,
                                      n: nat)
    requires Image(dest, src, c, x, d, n)
    requires forall k | k in dest :: k in more && more[k] == dest[k]
    ensures Image(more, src, c, x, d, n)
    decreases n
  {
    if x != c.srcRoot {
      ImageStays(dest, more, src, c, src.parent[x], dest[d], n - 1);
    }
  }

  // ----- sorting -----

  predicate Sorted(folders: seq<Item>) {
    forall a, b | 0 <= a < b < |folders| :: Depth(folders[a].path) <= Depth(folders[b].path)
  }

  lemma {:induction false} InsertedSame(x: Item, sorted: seq<Item>)
    ensures multiset(Inserted(x, sorted)) == multiset(sorted) + multiset{x}
  {
    if sorted != [] && Depth(x.path) > Depth(sorted[0].path) {
      InsertedSame(x, sorted[1..]);
      assert sorted == [sorted[0]] + sorted[1..];
    }
  }

  lemma HeadSorted(x: Item, rest: seq<Item>)
    requires Sorted(rest) && forall e | e in rest :: Depth(x.path) <= Depth(e.path)
    ensures Sorted([x] + rest)
  {
  }

  lemma {:induction false} InsertedSorted(x: Item, sorted: seq<Item>)
    requires Sorted(sorted)
    ensures Sorted(Inserted(x, sorted))
  {
    if sorted != [] && Depth(x.path) > Depth(sorted[0].path) {
      var rest := Inserted(x, sorted[1..]);
      InsertedSorted(x, sorted[1..]);
      InsertedSame(x, sorted[1..]);
      forall e | e in rest ensures Depth(sorted[0].path) <= Depth(e.path) {
        assert e in multiset(rest);
        assert e == x || e in sorted[1..];
      }
      HeadSorted(sorted[0], rest);
    }
  }

  /** The folder list is sorted shallow-first and loses nothing. */
  lemma {:induction false} ByDepthSorts(folders: seq<Item>)
    ensures Sorted(ByDepth(folders)) && multiset(ByDepth(folders)) == multiset(folders)
  {
    if folders != [] {
      ByDepthSorts(folders[1..]);
      InsertedSorted(folders[0], ByDepth(folders[1..]));
      InsertedSame(folders[0], ByDepth(folders[1..]));
      assert folders == [folders[0]] + folders[1..];
    }
  }

  lemma {:induction false} SlashesOfConcat(a: string, b: string)
    ensures CountSlashes(a + b) == CountSlashes(a) + CountSlashes(b)
  {
    if a == "" {
      assert a + b == b;
    } else {
      SlashesOfConcat(a[1..], b);
      assert (a + b)[1..] == a[1..] + b;
    }
  }

  lemma {:induction false} TailOfConcat(a: string, b: string)
    requires HasRoot(a)
    ensures Tail(a + b) == Tail(a) + b && HasRoot(a + b)
  {
    if a[..5] == "root:" {
      assert (a + b)[..5] == a[..5];
    } else {
      assert (a + b)[..5] == a[..5];
      assert (a + b)[1..] == a[1..] + b;
      TailOfConcat(a[1..], b);
    }
  }

  /** Under Graph's path convention a child is deeper than its parent, so depths are those of a tree. */
  lemma ChildIsDeeper(parentPath: string, name: string)
    requires HasRoot(parentPath)
    ensures Depth(parentPath) < Depth(parentPath + "/" + name)
  {
    TailOfConcat(parentPath, "/");
    TailOfConcat(parentPath + "/", name);
    SlashesOfConcat(Tail(parentPath), "/");
    SlashesOfConcat(Tail(parentPath) + "/", name);
  }

  // ----- the folder loop -----

  predicate Extends(dest: map<Id, Id>, more: map<Id, Id>) {
    forall k | k in dest :: k in more && more[k] == dest[k]
  }

  /** Every folder request of the loop is answered honestly. */
  predicate HonestFolders(s: State, c: Settings, folders: seq<Item>, i: nat, script: Script)
    requires i <= |folders|
    decreases |folders| - i
  {
    if i == |folders| || s.cancelled || script.folders(i).stop then true
    else
      var f := script.folders(i);
      var r := EnsureFolder(s, c, folders[i], f);
      && (folders[i].id !in s.cp.folderMap && TookEffect(f.reply) ==>
          Honest(s.dest, DstParent(s, c, folders[i]), f.newId, c))
      && (r.exit == Go ==> HonestFolders(r.s, c, folders, i + 1, script))
  }

  lemma EnsureFolderTree(s: State, c: Settings, src: Source, folder: Item, f: FolderScript)
    requires TreeMap(s.cp.folderMap, s.dest, src, c) && Knows(src, folder) && c.srcRoot !in src.parent
    requires folder.parent.value in s.cp.folderMap
    requires folder.id !in s.cp.folderMap && TookEffect(f.reply) ==> Honest(s.dest, DstParent(s, c, folder), f.newId, c)
    ensures
      var r := EnsureFolder(s, c, folder, f);
      && TreeMap(r.s.cp.folderMap, r.s.dest, src, c)
      && Extends(s.dest, r.s.dest)
      && s.cp.folderMap.Keys <= r.s.cp.folderMap.Keys
      && (r.exit == Go ==> folder.id in r.s.cp.folderMap)
  {
  }

  /** The parent of the next folder in depth order is mapped already. */
  lemma ParentMapped(c: Settings, src: Source, folders: seq<Item>, i: nat, fm: map<Id, Id>)
    requires WellFormed(src, c) && Sorted(folders) && i < |folders|
    requires forall f | f in folders :: Knows(src, f) && Enumerated(f.parent.value, folders, fm.Keys, c)
    requires c.srcRoot in fm && forall j | 0 <= j < i :: folders[j].id in fm
    ensures folders[i].parent.Some? && folders[i].parent.value in fm
  {
    assert Knows(src, folders[i]);
    var p := folders[i].parent.value;
    if exists f :: f in folders && f.id == p {
      var f :| f in folders && f.id == p;
      assert Knows(src, f);
      var j :| 0 <= j < |folders| && folders[j] == f;
      assert j < i;
    }
  }

  lemma {:induction false} CopyFoldersTree(s: State, c: Settings, src: Source, folders: seq<Item>, i: nat,
                                           script: Script)
    requires i <= |folders| && WellFormed(src, c) && Sorted(folders)
    requires forall f | f in folders :: Knows(src, f) && Enumerated(f.parent.value, folders, s.cp.folderMap.Keys, c)
    requires TreeMap(s.cp.folderMap, s.dest, src, c) && c.srcRoot in s.cp.folderMap
    requires forall j | 0 <= j < i :: folders[j].id in s.cp.folderMap
    requires HonestFolders(s, c, folders, i, script)
    ensures
      var r := CopyFolders(s, c, folders, i, script);
      && TreeMap(r.s.cp.folderMap, r.s.dest, src, c)
      && Extends(s.dest, r.s.dest)
      && s.cp.folderMap.Keys <= r.s.cp.folderMap.Keys
      && (r.exit == Go && !r.stopped ==> forall j | 0 <= j < |folders| :: folders[j].id in r.s.cp.folderMap)
    decreases |folders| - i
  {
    if i < |folders| && !s.cancelled && !script.folders(i).stop {
      ParentMapped(c, src, folders, i, s.cp.folderMap);
      EnsureFolderTree(s, c, src, folders[i], script.folders(i));
      var r := EnsureFolder(s, c, folders[i], script.folders(i));
      if r.exit == Go {
        StillEnumerated(c, src, folders, s.cp.folderMap.Keys, r.s.cp.folderMap.Keys);
        CopyFoldersTree(r.s, c, src, folders, i + 1, script);
      }
    }
  }

  lemma StillEnumerated(c: Settings, src: Source, folders: seq<Item>, mapped: set<Id>, more: set<Id>)
    requires mapped <= more
    requires forall f | f in folders :: Knows(src, f) && Enumerated(f.parent.value, folders, mapped, c)
    ensures forall f | f in folders :: f.parent.Some? && Enumerated(f.parent.value, folders, more, c)
  {
  }

  // ----- whole runs -----

  predicate Landed(s: State, src: Source, c: Settings) {
    forall u | u in s.uploads :: u.file in src.fileParent
        && HasImage(s.dest, src, c, src.fileParent[u.file], u.dstParent)
  }

  /** Both folder maps are images of the source tree, and every copied file lies where it should. */
  predicate Tree(s: State, src: Source, c: Settings) {
    TreeMap(s.persisted.folderMap, s.dest, src, c) && TreeMap(s.cp.folderMap, s.dest, src, c) && Landed(s, src, c)
  }

  lemma HeartbeatTree(s: State, src: Source, c: Settings, b: Beat)
    requires Tree(s, src, c)
    ensures
      var t := Heartbeat(s, b, c.flushSize).s;
      Tree(t, src, c) && t.cp.folderMap == s.cp.folderMap && t.dest == s.dest
  {
    HeartbeatMaps(s, b, c.flushSize);
    SameTree(s, Heartbeat(s, b, c.flushSize).s, src, c);
  }

  /** A step that touches no map but may persist the one in memory. */
  predicate SameMaps(s: State, t: State) {
    && t.uploads == s.uploads && t.dest == s.dest && t.cp.folderMap == s.cp.folderMap
    && (t.persisted.folderMap == s.persisted.folderMap || t.persisted.folderMap == s.cp.folderMap)
  }

  lemma SameTree(s: State, t: State, src: Source, c: Settings)
    requires Tree(s, src, c) && SameMaps(s, t)
    ensures Tree(t, src, c)
  {
  }

  lemma HeartbeatMaps(s: State, b: Beat, flushSize: nat)
    ensures SameMaps(s, Heartbeat(s, b, flushSize).s)
  {
  }

  lemma OneFileTree(s: State, src: Source, c: Settings, file: Item, f: FileScript)
    requires Tree(s, src, c) && WellFormed(src, c)
    requires KnowsFile(src, file) && file.parent.value in s.cp.folderMap
    ensures
      var t := OneFile(s, c, file, f).s;
      Tree(t, src, c) && t.cp.folderMap == s.cp.folderMap && t.dest == s.dest
  {
    CopyEffect(s, c, file, f.attempts, 0, false);
    var r := Copy(s, c, file, f.attempts, 0, false);
    MappedHasImage(s.cp.folderMap, s.dest, src, c, file.parent.value);
    var t := if r.ok then Credited(r.s, file) else r.s;
    assert Landed(t, src, c);
    HeartbeatTree(t, src, c, f.beat);
  }

  lemma {:induction false} CopyFilesTree(s: State, src: Source, c: Settings, files: seq<Item>, i: nat, script: Script)
    requires Tree(s, src, c) && WellFormed(src, c) && i <= |files|
    requires forall f | f in files :: KnowsFile(src, f) && f.parent.value in s.cp.folderMap
    ensures
      var t := CopyFiles(s, c, files, i, script).s;
      Tree(t, src, c) && t.dest == s.dest
    decreases |files| - i
  {
    if i < |files| && !s.cancelled && !script.files(i).stop {
      OneFileTree(s, src, c, files[i], script.files(i));
      var r := OneFile(s, c, files[i], script.files(i));
      if r.exit == Go {
        CopyFilesTree(r.s, src, c, files, i + 1, script);
      }
    }
  }

  lemma DestGrows(s: State, t: State, src: Source, c: Settings)
    requires TreeMap(s.persisted.folderMap, s.dest, src, c) && Landed(s, src, c)
    requires Extends(s.dest, t.dest) && t.uploads == s.uploads && t.persisted == s.persisted
    ensures TreeMap(t.persisted.folderMap, t.dest, src, c) && Landed(t, src, c)
  {
    forall u | u in t.uploads
      ensures HasImage(t.dest, src, c, src.fileParent[u.file], u.dstParent)
    {
      var x := src.fileParent[u.file];
      ImageStays(s.dest, t.dest, src, c, x, u.dstParent, if x in src.depth then src.depth[x] + 1 else 0);
    }
  }

  lemma SameFolders(feed: seq<Item>)
    ensures Sorted(ByDepth(Folders(feed)))
    ensures forall f :: f in ByDepth(Folders(feed)) <==> f in Folders(feed)
  {
    var a, b := ByDepth(Folders(feed)), Folders(feed);
    ByDepthSorts(b);
    forall f: Item ensures f in a <==> f in b {
      assert f in a <==> f in multiset(a);
    }
  }

  /** Once the folder loop is through, the parent of every file is mapped. */
  lemma FoldersTree(s: State, src: Source, c: Settings, feed: seq<Item>, script: Script)
    requires Tree(s, src, c) && WellFormed(src, c) && c.srcRoot in s.cp.folderMap
    requires FeedOf(src, feed, s.cp.folderMap.Keys, c)
    requires HonestFolders(s, c, ByDepth(Folders(feed)), 0, script)
    ensures
      var q := CopyFolders(s, c, ByDepth(Folders(feed)), 0, script);
      && Tree(q.s, src, c)
      && (q.exit == Go && !q.stopped ==>
            forall f | f in Files(feed) :: KnowsFile(src, f) && f.parent.value in q.s.cp.folderMap)
  {
    var folders := ByDepth(Folders(feed));
    SameFolders(feed);
    forall f | f in folders ensures Knows(src, f) && Enumerated(f.parent.value, folders, s.cp.folderMap.Keys, c) {
      SameEnumerated(f.parent.value, Folders(feed), folders, s.cp.folderMap.Keys, c);
    }
    CopyFoldersFrame(s, c, folders, 0, script);
    CopyFoldersTree(s, c, src, folders, 0, script);
    var q := CopyFolders(s, c, folders, 0, script);
    DestGrows(s, q.s, src, c);
    if q.exit == Go && !q.stopped {
      forall f | f in Files(feed) ensures KnowsFile(src, f) && f.parent.value in q.s.cp.folderMap {
        SameEnumerated(f.parent.value, Folders(feed), folders, s.cp.folderMap.Keys, c);
      }
    }
  }

  lemma SameEnumerated(x: Id, folders: seq<Item>, sorted: seq<Item>, mapped: set<Id>, c: Settings)
    requires Enumerated(x, folders, mapped, c) && forall f :: f in sorted <==> f in folders
    ensures Enumerated(x, sorted, mapped, c)
    ensures x == c.srcRoot || x in mapped || exists j :: 0 <= j < |sorted| && sorted[j].id == x
  {
    if x != c.srcRoot && x !in mapped {
      var f :| f in folders && f.id == x;
      assert f in sorted;
    }
  }

  lemma ApplyFeedTree(s: State, src: Source, c: Settings, feed: seq<Item>, script: Script)
    requires Tree(s, src, c) && WellFormed(src, c) && c.srcRoot in s.cp.folderMap
    requires FeedOf(src, feed, s.cp.folderMap.Keys, c)
    requires HonestFolders(s, c, ByDepth(Folders(feed)), 0, script)
    ensures Tree(ApplyFeed(s, c, feed, script).s, src, c)
  {
    FoldersTree(s, src, c, feed, script);
    var q := CopyFolders(s, c, ByDepth(Folders(feed)), 0, script);
    if q.exit == Go && !q.stopped {
      CopyFilesTree(q.s, src, c, Files(feed), 0, script);
    }
  }

  lemma HandledTree(s: State, src: Source, c: Settings, feed: seq<Item>, script: Script)
    requires TreeMap(s.persisted.folderMap, s.dest, src, c) && Landed(s, src, c) && WellFormed(src, c)
    requires FeedOf(src, feed, s.persisted.folderMap.Keys, c)
    requires HonestFolders(Rooted(Loaded(s), c), c, ByDepth(Folders(feed)), 0, script)
    ensures Tree(Handled(s, c, feed, script).s, src, c)
  {
    var q := Rooted(Loaded(s), c);
    LoadedTree(s, src, c);
    StillFeedOf(src, feed, s.persisted.folderMap.Keys, q.cp.folderMap.Keys, c);
    BodyTree(q, src, c, feed, script);
    ClosingTree(Body(q, c, feed, script).s, src, c, script);
    EpilogueTree(Run(Loaded(s), c, feed, script), src, c, script);
  }

  lemma LoadedTree(s: State, src: Source, c: Settings)
    requires TreeMap(s.persisted.folderMap, s.dest, src, c) && Landed(s, src, c) && WellFormed(src, c)
    ensures Tree(Loaded(s), src, c) && Tree(Rooted(Loaded(s), c), src, c)
  {
    assert Landed(Loaded(s), src, c);
  }

  lemma StillFeedOf(src: Source, feed: seq<Item>, mapped: set<Id>, more: set<Id>, c: Settings)
    requires FeedOf(src, feed, mapped, c) && mapped <= more
    ensures FeedOf(src, feed, more, c)
  {
  }

  lemma BodyTree(s: State, src: Source, c: Settings, feed: seq<Item>, script: Script)
    requires Tree(s, src, c) && WellFormed(src, c) && c.srcRoot in s.cp.folderMap
    requires FeedOf(src, feed, s.cp.folderMap.Keys, c)
    requires HonestFolders(s, c, ByDepth(Folders(feed)), 0, script)
    ensures Tree(Body(s, c, feed, script).s, src, c)
  {
    ApplyFeedTree(s, src, c, feed, script);
    BodyMaps(s, c, feed, script);
    SameTree(if script.enumeration.Ok? then ApplyFeed(s, c, feed, script).s else s, Body(s, c, feed, script).s, src, c);
  }

  lemma BodyMaps(s: State, c: Settings, feed: seq<Item>, script: Script)
    ensures SameMaps(if script.enumeration.Ok? then ApplyFeed(s, c, feed, script).s else s, Body(s, c, feed, script).s)
  {
  }

  lemma ClosingTree(s: State, src: Source, c: Settings, script: Script)
    requires Tree(s, src, c)
    ensures Tree(Closing(s, script).s, src, c)
  {
    ClosingMaps(s, script);
    SameTree(s, Closing(s, script).s, src, c);
  }

  lemma ClosingMaps(s: State, script: Script)
    ensures SameMaps(s, Closing(s, script).s)
  {
  }

  lemma EpilogueTree(r: Result, src: Source, c: Settings, script: Script)
    requires Tree(r.s, src, c)
    ensures Tree(Epilogue(r, script).s, src, c)
  {
    EpilogueMaps(r, script);
    SameTree(r.s, Epilogue(r, script).s, src, c);
  }

  lemma EpilogueMaps(r: Result, script: Script)
    ensures SameMaps(r.s, Epilogue(r, script).s)
  {
  }

  /** Every run of the chain sees a feed of the same tree and an honest destination. */
  predicate TreeChain(ch: Chain, src: Source, c: Settings) {
    ch.Fresh? ||
    (&& TreeChain(ch.prev, src, c)
     && FeedOf(src, ch.feed, After(ch.prev, c).persisted.folderMap.Keys, c)
     && HonestFolders(Rooted(Loaded(After(ch.prev, c)), c), c, ByDepth(Folders(ch.feed)), 0, ch.script))
  }

  /**
   * In every chain of runs, however interrupted: each folder map, persisted or in memory, is an image
   * of the source tree, and each copied file lies under an image of its source folder whose chain of
   * ancestors matches the source up to the root.
   */
  lemma {:induction false} TreePreserved(ch: Chain, src: Source, c: Settings)
    requires WellFormed(src, c) && TreeChain(ch, src, c)
    ensures Tree(After(ch, c), src, c)
  {
    if ch.Then? {
      TreePreserved(ch.prev, src, c);
      HandledTree(After(ch.prev, c), src, c, ch.feed, ch.script);
    }
  }
}
