/**
  What belongs to a commit, told by commits, parents, roots, entries and blocks alone: its history
  along parents, and of every commit there the directories and files that names lead to from the
  root, and the blocks of those files. That is exactly what following references reaches.
 */
module Snapshots {
  import opened ObjectGraph

  predicate CommitIn(store: Store, scope: Scope, id: Id) {
    Key(scope, Commits, id) in store && store[Key(scope, Commits, id)].CommitObject?
  }

  predicate DirectoryIn(store: Store, scope: Scope, id: Id) {
    Key(scope, Directories, id) in store && store[Key(scope, Directories, id)].Directory?
  }

  predicate FileIn(store: Store, scope: Scope, id: Id) {
    Key(scope, Files, id) in store && store[Key(scope, Files, id)].File?
  }

  predicate BlockIn(store: Store, scope: Scope, id: Id) {
    Key(scope, Blocks, id) in store && store[Key(scope, Blocks, id)].Block?
  }

  predicate ParentAt(store: Store, scope: Scope, line: seq<Id>, i: nat) {
    0 < i < |line| && CommitIn(store, scope, line[i - 1]) && line[i] in store[Key(scope, Commits, line[i - 1])].commit.parents
  }

  /** Each commit of the line is a parent of the one before. */
  predicate Line(store: Store, scope: Scope, line: seq<Id>) {
    line != [] && forall i {:trigger ParentAt(store, scope, line, i)} :: 0 < i < |line| ==> ParentAt(store, scope, line, i)
  }

  /** The directory that holds the entry at a position of a trail. */
  function Holder(root: Id, trail: seq<Entry>, i: nat): Id
    requires i <= |trail|
  {
    if i == 0 then root else trail[i - 1].id
  }

  predicate EntryAt(store: Store, scope: Scope, root: Id, trail: seq<Entry>, i: nat) {
    && i < |trail| && (i > 0 ==> trail[i - 1].entryType.DirectoryEntry?) && DirectoryIn(store, scope, Holder(root, trail, i))
    && trail[i] in store[Key(scope, Directories, Holder(root, trail, i))].entries
  }

  /** Each entry of the trail is in the directory that the one before it names, the first in the root. */
  predicate Trail(store: Store, scope: Scope, root: Id, trail: seq<Entry>) {
    forall i {:trigger EntryAt(store, scope, root, trail, i)} :: 0 <= i < |trail| ==> EntryAt(store, scope, root, trail, i)
  }

  /** What a trail leads to. */
  function End(scope: Scope, root: Id, trail: seq<Entry>): Key {
    if trail == [] then Key(scope, Directories, root)
    else
      var last := trail[|trail| - 1];
      Key(scope, if last.entryType.FileEntry? then Files else Directories, last.id)
  }

  predicate BlockOf(store: Store, file: Key, key: Key) {
    file.kind.Files? && FileIn(store, file.scope, file.id) && key.scope == file.scope && key.kind.Blocks? && key.id in store[file].blocks
  }

  /** The object is the root directory, or names lead to it, or it is a block of a file that names lead to. */
  ghost predicate InSnapshot(store: Store, scope: Scope, root: Id, key: Key) {
    exists trail :: Trail(store, scope, root, trail) && (key == End(scope, root, trail) || BlockOf(store, End(scope, root, trail), key))
  }

  /** The object is the last commit of the line, or in its snapshot. */
  ghost predicate AtLine(store: Store, scope: Scope, line: seq<Id>, key: Key)
    requires line != []
  {
    var last := line[|line| - 1];
    key == Key(scope, Commits, last) || (CommitIn(store, scope, last) && InSnapshot(store, scope, store[Key(scope, Commits, last)].commit.root, key))
  }

  /** The object belongs to the history of the commit: to the commit, or to one that parents lead to. */
  ghost predicate InHistory(store: Store, from: Key, key: Key) {
    exists line :: Line(store, from.scope, line) && line[0] == from.id && AtLine(store, from.scope, line, key)
  }

  /** The object belongs to the history of one of the commits. */
  ghost predicate Belongs(store: Store, roots: set<Key>, key: Key) {
    exists from {:trigger InHistory(store, from, key)} :: from in roots && InHistory(store, from, key)
  }

  // ---- it is what references reach ----

  lemma LineShorter(store: Store, scope: Scope, line: seq<Id>, n: nat)
    requires Line(store, scope, line) && 0 < n <= |line|
    ensures Line(store, scope, line[..n])
  {
    forall i | 0 < i < n
      ensures ParentAt(store, scope, line[..n], i)
    {
      assert ParentAt(store, scope, line, i);
    }
  }

  lemma TrailShorter(store: Store, scope: Scope, root: Id, trail: seq<Entry>, n: nat)
    requires Trail(store, scope, root, trail) && n < |trail|
    ensures Trail(store, scope, root, trail[..n]) && End(scope, root, trail[..n]) == Key(scope, Directories, Holder(root, trail, n))
  {
    forall i | 0 <= i < n
      ensures EntryAt(store, scope, root, trail[..n], i)
    {
      assert EntryAt(store, scope, root, trail, i);
    }
    assert EntryAt(store, scope, root, trail, n);
  }

  lemma {:induction false} LineReaches(store: Store, roots: set<Key>, scope: Scope, line: seq<Id>)
    requires Line(store, scope, line) && Key(scope, Commits, line[0]) in roots
    ensures Reachable(store, roots, Key(scope, Commits, line[|line| - 1]))
    decreases |line|
  {
    var n := |line| - 1;
    if n == 0 {
      RootReachable(store, roots, Key(scope, Commits, line[0]));
    } else {
      LineShorter(store, scope, line, n);
      LineReaches(store, roots, scope, line[..n]);
      assert ParentAt(store, scope, line, n);
      ParentReached(store, roots, scope, line[n - 1], line[n]);
    }
  }

  lemma ParentReached(store: Store, roots: set<Key>, scope: Scope, id: Id, parent: Id)
    requires Reachable(store, roots, Key(scope, Commits, id)) && CommitIn(store, scope, id)
    requires parent in store[Key(scope, Commits, id)].commit.parents
    ensures Reachable(store, roots, Key(scope, Commits, parent))
  {
    StepReachable(store, roots, Key(scope, Commits, id), Key(scope, Commits, parent));
  }

  lemma RootReached(store: Store, roots: set<Key>, scope: Scope, id: Id)
    requires Reachable(store, roots, Key(scope, Commits, id)) && CommitIn(store, scope, id)
    ensures Reachable(store, roots, Key(scope, Directories, store[Key(scope, Commits, id)].commit.root))
  {
    StepReachable(store, roots, Key(scope, Commits, id), Key(scope, Directories, store[Key(scope, Commits, id)].commit.root));
  }

  lemma EntryReached(store: Store, roots: set<Key>, scope: Scope, id: Id, e: Entry)
    requires Reachable(store, roots, Key(scope, Directories, id)) && DirectoryIn(store, scope, id) && e in store[Key(scope, Directories, id)].entries
    ensures Reachable(store, roots, Key(scope, if e.entryType.FileEntry? then Files else Directories, e.id))
  {
    StepReachable(store, roots, Key(scope, Directories, id), Key(scope, if e.entryType.FileEntry? then Files else Directories, e.id));
  }

  lemma BlockReached(store: Store, roots: set<Key>, file: Key, key: Key)
    requires Reachable(store, roots, file) && BlockOf(store, file, key)
    ensures Reachable(store, roots, key)
  {
    StepReachable(store, roots, file, key);
  }

  lemma {:induction false} TrailReaches(store: Store, roots: set<Key>, scope: Scope, root: Id, trail: seq<Entry>)
    requires Trail(store, scope, root, trail) && Reachable(store, roots, Key(scope, Directories, root))
    ensures Reachable(store, roots, End(scope, root, trail))
    decreases |trail|
  {
    if trail != [] {
      var n := |trail| - 1;
      TrailShorter(store, scope, root, trail, n);
      TrailReaches(store, roots, scope, root, trail[..n]);
      assert EntryAt(store, scope, root, trail, n);
      EntryReached(store, roots, scope, Holder(root, trail, n), trail[n]);
    }
  }

  lemma SnapshotReaches(store: Store, roots: set<Key>, scope: Scope, root: Id, key: Key)
    requires InSnapshot(store, scope, root, key) && Reachable(store, roots, Key(scope, Directories, root))
    ensures Reachable(store, roots, key)
  {
    var trail :| Trail(store, scope, root, trail) && (key == End(scope, root, trail) || BlockOf(store, End(scope, root, trail), key));
    TrailReaches(store, roots, scope, root, trail);
    if key != End(scope, root, trail) {
      BlockReached(store, roots, End(scope, root, trail), key);
    }
  }

  lemma HistoryReaches(store: Store, roots: set<Key>, from: Key, key: Key)
    requires from in roots && from.kind.Commits? && InHistory(store, from, key)
    ensures Reachable(store, roots, key)
  {
    var line :| Line(store, from.scope, line) && line[0] == from.id && AtLine(store, from.scope, line, key);
    var last := line[|line| - 1];
    LineReaches(store, roots, from.scope, line);
    if key != Key(from.scope, Commits, last) {
      RootReached(store, roots, from.scope, last);
      SnapshotReaches(store, roots, from.scope, store[Key(from.scope, Commits, last)].commit.root, key);
    }
  }

  /** A longer trail, by one entry of the directory it leads to. */
  lemma TrailGrows(store: Store, scope: Scope, root: Id, trail: seq<Entry>, e: Entry)
    requires Trail(store, scope, root, trail) && End(scope, root, trail).kind.Directories?
    requires DirectoryIn(store, scope, End(scope, root, trail).id) && e in store[End(scope, root, trail)].entries
    ensures Trail(store, scope, root, trail + [e])
  {
    var longer := trail + [e];
    forall i | 0 <= i < |longer|
      ensures EntryAt(store, scope, root, longer, i)
    {
      if i < |trail| {
        assert EntryAt(store, scope, root, trail, i);
      } else {
        assert Key(scope, Directories, Holder(root, longer, i)) == End(scope, root, trail);
      }
    }
  }

  lemma LineGrows(store: Store, scope: Scope, line: seq<Id>, parent: Id)
    requires Line(store, scope, line) && CommitIn(store, scope, line[|line| - 1])
    requires parent in store[Key(scope, Commits, line[|line| - 1])].commit.parents
    ensures Line(store, scope, line + [parent])
  {
    forall i | 0 < i < |line| + 1
      ensures ParentAt(store, scope, line + [parent], i)
    {
      assert i < |line| ==> ParentAt(store, scope, line, i);
    }
  }

  lemma SnapshotStep(store: Store, scope: Scope, root: Id, key: Key, next: Key)
    requires InSnapshot(store, scope, root, key) && next in Refs(store, key)
    ensures InSnapshot(store, scope, root, next)
  {
    var trail :| Trail(store, scope, root, trail) && (key == End(scope, root, trail) || BlockOf(store, End(scope, root, trail), key));
    assert key == End(scope, root, trail);
    if key.kind.Directories? {
      var e :| e in store[key].entries && next == Key(scope, if e.entryType == FileEntry then Files else Directories, e.id);
      TrailGrows(store, scope, root, trail, e);
      assert End(scope, root, trail + [e]) == next;
    } else {
      assert BlockOf(store, key, next);
    }
  }

  lemma RootInSnapshot(store: Store, scope: Scope, root: Id)
    ensures InSnapshot(store, scope, root, Key(scope, Directories, root))
  {
    assert Trail(store, scope, root, []) && End(scope, root, []) == Key(scope, Directories, root);
  }

  lemma HistoryStep(store: Store, from: Key, key: Key, next: Key)
    requires InHistory(store, from, key) && next in Refs(store, key)
    ensures InHistory(store, from, next)
  {
    var scope := from.scope;
    var line :| Line(store, scope, line) && line[0] == from.id && AtLine(store, scope, line, key);
    var last := line[|line| - 1];
    if key != Key(scope, Commits, last) {
      SnapshotStep(store, scope, store[Key(scope, Commits, last)].commit.root, key, next);
    } else if next.kind.Directories? {
      RootInSnapshot(store, scope, store[key].commit.root);
      assert AtLine(store, scope, line, next);
    } else {
      LineGrows(store, scope, line, next.id);
      var longer := line + [next.id];
      assert longer[|longer| - 1] == next.id && longer[0] == from.id;
      assert AtLine(store, scope, longer, next);
    }
  }

  lemma HistoryStarts(store: Store, from: Key)
    requires from.kind.Commits?
    ensures InHistory(store, from, from)
  {
    assert Line(store, from.scope, [from.id]) && AtLine(store, from.scope, [from.id], from);
  }

  lemma ReachedIsHistory(store: Store, roots: set<Key>, key: Key) returns (from: Key)
    requires (forall k :: k in roots ==> k.kind.Commits?) && Reachable(store, roots, key)
    ensures from in roots && InHistory(store, from, key)
  {
    var path :| IsPath(store, path) && path[0] in roots && path[|path| - 1] == key;
    from := path[0];
    HistoryStarts(store, from);
    var i := 0;
    while i < |path| - 1
      invariant 0 <= i < |path| && InHistory(store, from, path[i])
    {
      assert path[i + 1] in Refs(store, path[i]);
      HistoryStep(store, from, path[i], path[i + 1]);
      i := i + 1;
    }
  }

  /** What references reach from some commits is exactly what belongs to their histories. */
  lemma ReachableIsHistory(store: Store, roots: set<Key>, key: Key)
    requires forall k :: k in roots ==> k.kind.Commits?
    ensures Reachable(store, roots, key) <==> Belongs(store, roots, key)
  {
    if Reachable(store, roots, key) {
      var from := ReachedIsHistory(store, roots, key);
    }
    forall from | from in roots && InHistory(store, from, key)
      ensures Reachable(store, roots, key)
    {
      HistoryReaches(store, roots, from, key);
    }
  }

  // ---- whole objects ----

  /** The blocks are stored, all but the last have four mebibytes, none is empty, and together they have the file's length. */
  predicate BlocksFit(store: Store, scope: Scope, file: Object)
    requires file.File?
  {
    var n := |file.blocks|;
    && (forall i :: 0 <= i < n ==>
          && BlockIn(store, scope, file.blocks[i]) && 1 <= store[Key(scope, Blocks, file.blocks[i])].size <= 4194304
          && (i < n - 1 ==> store[Key(scope, Blocks, file.blocks[i])].size == 4194304))
    && file.length == if n == 0 then 0 else (n - 1) * 4194304 + store[Key(scope, Blocks, file.blocks[n - 1])].size
  }

  /** The object can be read as what its key says, and the blocks of a file fit. */
  predicate Whole(store: Store, key: Key) {
    match key.kind
    case Blocks => BlockIn(store, key.scope, key.id)
    case Files => FileIn(store, key.scope, key.id) && BlocksFit(store, key.scope, store[key])
    case Directories => DirectoryIn(store, key.scope, key.id)
    case Commits => CommitIn(store, key.scope, key.id)
  }

  lemma {:induction false} FullTotal(store: Store, scope: Scope, blocks: seq<Id>)
    requires forall i :: 0 <= i < |blocks| ==> var key := Key(scope, Blocks, blocks[i]); Readable(store, key) && store[key].size == MaxBlockSize
    ensures BlockTotal(store, scope, blocks) == |blocks| * 4194304
  {
    if blocks != [] {
      FullTotal(store, scope, blocks[..|blocks| - 1]);
    }
  }

  lemma SoundIsWhole(store: Store, key: Key)
    requires Sound(store, key)
    ensures Whole(store, key)
  {
    if key.kind.Files? {
      var blocks := store[key].blocks;
      forall i | 0 <= i < |blocks|
        ensures BlockIn(store, key.scope, blocks[i]) && 1 <= store[Key(key.scope, Blocks, blocks[i])].size <= 4194304
        ensures i < |blocks| - 1 ==> store[Key(key.scope, Blocks, blocks[i])].size == 4194304
      {
        assert Readable(store, Key(key.scope, Blocks, blocks[i]));
      }
      if blocks != [] {
        FullTotal(store, key.scope, blocks[..|blocks| - 1]);
      }
    }
  }

  lemma WholeTotal(store: Store, scope: Scope, file: Object)
    requires file.File? && BlocksFit(store, scope, file)
    ensures BlockTotal(store, scope, file.blocks) == file.length
  {
    var blocks := file.blocks;
    if blocks != [] {
      var front := blocks[..|blocks| - 1];
      forall i | 0 <= i < |front|
        ensures var key := Key(scope, Blocks, front[i]); Readable(store, key) && store[key].size == MaxBlockSize
      {
        assert front[i] == blocks[i] && BlockIn(store, scope, blocks[i]);
      }
      FullTotal(store, scope, front);
      assert BlockIn(store, scope, blocks[|blocks| - 1]);
    }
  }

  lemma WholeIsSound(store: Store, key: Key)
    requires Whole(store, key)
    ensures Sound(store, key)
  {
    if key.kind.Files? {
      WholeTotal(store, key.scope, store[key]);
      forall i | 0 <= i < |store[key].blocks|
        ensures Readable(store, Key(key.scope, Blocks, store[key].blocks[i]))
      {
        assert BlockIn(store, key.scope, store[key].blocks[i]);
      }
    }
  }

  /** From a directory, references reach exactly what is in the snapshot. */
  lemma ReachableIsSnapshot(store: Store, scope: Scope, root: Id, key: Key)
    ensures Reachable(store, {Key(scope, Directories, root)}, key) <==> InSnapshot(store, scope, root, key)
  {
    var top := Key(scope, Directories, root);
    RootReachable(store, {top}, top);
    if InSnapshot(store, scope, root, key) {
      SnapshotReaches(store, {top}, scope, root, key);
    }
    if Reachable(store, {top}, key) {
      var path :| IsPath(store, path) && path[0] in {top} && path[|path| - 1] == key;
      RootInSnapshot(store, scope, root);
      var i := 0;
      while i < |path| - 1
        invariant 0 <= i < |path| && InSnapshot(store, scope, root, path[i])
      {
        assert path[i + 1] in Refs(store, path[i]);
        SnapshotStep(store, scope, root, path[i], path[i + 1]);
        i := i + 1;
      }
    }
  }

  /** Everything that names lead to from the root is whole. */
  ghost predicate SnapshotWhole(store: Store, scope: Scope, root: Id) {
    forall key {:trigger InSnapshot(store, scope, root, key)} :: InSnapshot(store, scope, root, key) ==> Whole(store, key)
  }

  lemma SoundIsSnapshotWhole(store: Store, scope: Scope, root: Id)
    ensures SoundClosure(store, {Key(scope, Directories, root)}) <==> SnapshotWhole(store, scope, root)
  {
    var roots := {Key(scope, Directories, root)};
    if SoundClosure(store, roots) {
      forall key | InSnapshot(store, scope, root, key)
        ensures Whole(store, key)
      {
        ReachableIsSnapshot(store, scope, root, key);
        SoundIsWhole(store, key);
      }
    }
    if SnapshotWhole(store, scope, root) {
      forall key | Reachable(store, roots, key)
        ensures Sound(store, key)
      {
        ReachableIsSnapshot(store, scope, root, key);
        WholeIsSound(store, key);
      }
    }
  }

  // ---- what stays as it is ----

  /** Where it was stored before it is stored now, the same. */
  predicate StillThere(before: Store, after: Store, key: Key) {
    key in before ==> key in after && after[key] == before[key]
  }

  /** The whole history is. */
  ghost predicate AllThere(before: Store, after: Store, from: Key) {
    forall k {:trigger StillThere(before, after, k)} :: InHistory(before, from, k) ==> StillThere(before, after, k)
  }

  /** What a trail from a commit of the line leads to is still there. */
  lemma EndStays(before: Store, after: Store, from: Key, line: seq<Id>, trail: seq<Entry>)
    requires AllThere(before, after, from) && Line(before, from.scope, line) && line[0] == from.id && CommitIn(before, from.scope, line[|line| - 1])
    requires Trail(before, from.scope, before[Key(from.scope, Commits, line[|line| - 1])].commit.root, trail)
    ensures StillThere(before, after, End(from.scope, before[Key(from.scope, Commits, line[|line| - 1])].commit.root, trail))
  {
    var root := before[Key(from.scope, Commits, line[|line| - 1])].commit.root;
    var key := End(from.scope, root, trail);
    assert InSnapshot(before, from.scope, root, key);
    assert AtLine(before, from.scope, line, key);
    assert InHistory(before, from, key);
  }

  lemma TrailStays(before: Store, after: Store, from: Key, line: seq<Id>, trail: seq<Entry>)
    requires AllThere(before, after, from) && Line(before, from.scope, line) && line[0] == from.id && CommitIn(before, from.scope, line[|line| - 1])
    requires Trail(before, from.scope, before[Key(from.scope, Commits, line[|line| - 1])].commit.root, trail)
    ensures Trail(after, from.scope, before[Key(from.scope, Commits, line[|line| - 1])].commit.root, trail)
  {
    var scope, root := from.scope, before[Key(from.scope, Commits, line[|line| - 1])].commit.root;
    forall i | 0 <= i < |trail|
      ensures EntryAt(after, scope, root, trail, i)
    {
      TrailShorter(before, scope, root, trail, i);
      EndStays(before, after, from, line, trail[..i]);
      assert EntryAt(before, scope, root, trail, i);
    }
  }

  /** The commits of a line are still there. */
  lemma CommitStays(before: Store, after: Store, from: Key, line: seq<Id>)
    requires AllThere(before, after, from) && Line(before, from.scope, line) && line[0] == from.id
    ensures StillThere(before, after, Key(from.scope, Commits, line[|line| - 1]))
  {
    var key := Key(from.scope, Commits, line[|line| - 1]);
    assert AtLine(before, from.scope, line, key);
    assert InHistory(before, from, key);
  }

  lemma LineStays(before: Store, after: Store, from: Key, line: seq<Id>)
    requires AllThere(before, after, from) && Line(before, from.scope, line) && line[0] == from.id
    ensures Line(after, from.scope, line)
  {
    forall i | 0 < i < |line|
      ensures ParentAt(after, from.scope, line, i)
    {
      LineShorter(before, from.scope, line, i);
      CommitStays(before, after, from, line[..i]);
      assert ParentAt(before, from.scope, line, i);
    }
  }

  lemma SnapshotStays(before: Store, after: Store, from: Key, line: seq<Id>, key: Key)
    requires AllThere(before, after, from) && Line(before, from.scope, line) && line[0] == from.id && CommitIn(before, from.scope, line[|line| - 1])
    requires InSnapshot(before, from.scope, before[Key(from.scope, Commits, line[|line| - 1])].commit.root, key)
    ensures InSnapshot(after, from.scope, before[Key(from.scope, Commits, line[|line| - 1])].commit.root, key)
  {
    var scope, root := from.scope, before[Key(from.scope, Commits, line[|line| - 1])].commit.root;
    var trail :| Trail(before, scope, root, trail) && (key == End(scope, root, trail) || BlockOf(before, End(scope, root, trail), key));
    TrailStays(before, after, from, line, trail);
    EndStays(before, after, from, line, trail);
  }

  /** When everything in the history of a commit is still there, it is still the history. */
  lemma HistoryStays(before: Store, after: Store, from: Key, key: Key)
    requires AllThere(before, after, from) && InHistory(before, from, key)
    ensures InHistory(after, from, key)
  {
    var line :| Line(before, from.scope, line) && line[0] == from.id && AtLine(before, from.scope, line, key);
    LineStays(before, after, from, line);
    CommitStays(before, after, from, line);
    if key != Key(from.scope, Commits, line[|line| - 1]) {
      SnapshotStays(before, after, from, line, key);
    }
    assert AtLine(after, from.scope, line, key);
  }
}
