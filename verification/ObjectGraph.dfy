/**
  The content-addressed object store and the graph its objects form: commits name parents and a
  root directory, directories name files and directories, files name blocks.

  A stored object is either bytes that decode to a canonical object of the kind its key names, or
  `Corrupt`. The store is keyed by (owner, library), kind and id, as the object directory is.
 */
module ObjectGraph {
  type Id = string

  datatype Kind = Blocks | Files | Directories | Commits

  datatype Scope = Scope(owner: string, library: string)

  datatype Key = Key(scope: Scope, kind: Kind, id: Id)

  datatype EntryType = FileEntry | DirectoryEntry

  datatype Entry = Entry(name: string, entryType: EntryType, id: Id)

  datatype Commit = Commit(author: string, parents: seq<Id>, root: Id)

  datatype Object =
    | Block(size: nat)
    | File(blocks: seq<Id>, length: nat)
    | Directory(entries: seq<Entry>)
    | CommitObject(commit: Commit)
    | Corrupt

  type Store = map<Key, Object>

  const MaxBlockSize: nat := 4 * 1024 * 1024

  /** The object decodes as the kind of object the key asks for. */
  predicate HasKind(obj: Object, kind: Kind) {
    match kind
    case Blocks => obj.Block?
    case Files => obj.File?
    case Directories => obj.Directory?
    case Commits => obj.CommitObject?
  }

  /** The object is stored and passes verification against its key. */
  predicate Readable(store: Store, key: Key) {
    key in store && HasKind(store[key], key.kind)
  }

  /** The keys an object refers to. */
  function ObjectRefs(scope: Scope, obj: Object): set<Key> {
    match obj
    case Block(_) => {}
    case File(blocks, _) => set b | b in blocks :: Key(scope, Blocks, b)
    case Directory(entries) =>
      set e | e in entries :: Key(scope, if e.entryType == FileEntry then Files else Directories, e.id)
    case CommitObject(commit) =>
      {Key(scope, Directories, commit.root)} + set p | p in commit.parents :: Key(scope, Commits, p)
    case Corrupt => {}
  }

  function Refs(store: Store, key: Key): set<Key> {
    if Readable(store, key) then ObjectRefs(key.scope, store[key]) else {}
  }

  // ---- reachability ----

  ghost predicate IsPath(store: Store, path: seq<Key>) {
    && path != []
    && forall i :: 0 < i < |path| ==> path[i] in Refs(store, path[i - 1])
  }

  /** `key` is reached from one of `roots` by following references. */
  ghost predicate Reachable(store: Store, roots: set<Key>, key: Key) {
    exists path :: IsPath(store, path) && path[0] in roots && path[|path| - 1] == key
  }

  /** Every reference of a member of `keys` is a member of `keys` or of `pending`. */
  ghost predicate ClosedUpTo(store: Store, keys: set<Key>, pending: set<Key>) {
    forall k, c :: k in keys && c in Refs(store, k) ==> c in keys || c in pending
  }

  lemma RootReachable(store: Store, roots: set<Key>, key: Key)
    requires key in roots
    ensures Reachable(store, roots, key)
  {
    assert IsPath(store, [key]);
  }

  lemma StepReachable(store: Store, roots: set<Key>, key: Key, next: Key)
    requires Reachable(store, roots, key)
    requires next in Refs(store, key)
    ensures Reachable(store, roots, next)
  {
    var path :| IsPath(store, path) && path[0] in roots && path[|path| - 1] == key;
    var longer := path + [next];
    assert longer[|longer| - 1] == next;
    assert forall i :: 0 <= i < |path| ==> longer[i] == path[i];
    assert IsPath(store, longer);
  }

  lemma StepsReachable(store: Store, roots: set<Key>, key: Key)
    requires Reachable(store, roots, key)
    ensures forall next :: next in Refs(store, key) ==> Reachable(store, roots, next)
  {
    forall next | next in Refs(store, key)
      ensures Reachable(store, roots, next)
    {
      StepReachable(store, roots, key, next);
    }
  }

  /** A closed set that holds the roots holds everything reachable from them. */
  lemma ClosedHoldsReachable(store: Store, roots: set<Key>, keys: set<Key>, key: Key)
    requires roots <= keys
    requires ClosedUpTo(store, keys, {})
    requires Reachable(store, roots, key)
    ensures key in keys
  {
    var path :| IsPath(store, path) && path[0] in roots && path[|path| - 1] == key;
    var i := 0;
    while i < |path| - 1
      invariant 0 <= i < |path| && path[i] in keys
    {
      assert path[i + 1] in Refs(store, path[i]);
      i := i + 1;
    }
  }

  /**
    Nothing reachable changes when objects outside the reachable set are deleted or added:
    if every object reachable in `store` is present unchanged in `other`, the two stores reach
    the same keys.
   */
  lemma ReachableSame(store: Store, other: Store, roots: set<Key>, key: Key)
    requires forall k :: Reachable(store, roots, k) && k in store ==> k in other && other[k] == store[k]
    requires Reachable(other, roots, key)
    requires forall k :: Reachable(store, roots, k) && Readable(other, k) ==> Readable(store, k)
    ensures Reachable(store, roots, key)
  {
    var path :| IsPath(other, path) && path[0] in roots && path[|path| - 1] == key;
    var i := 0;
    RootReachable(store, roots, path[0]);
    while i < |path| - 1
      invariant 0 <= i < |path| && Reachable(store, roots, path[i])
    {
      assert path[i + 1] in Refs(other, path[i]);
      assert Readable(store, path[i]) && store[path[i]] == other[path[i]];
      StepReachable(store, roots, path[i], path[i + 1]);
      i := i + 1;
    }
  }

  // ---- what validation establishes of one object ----

  /** The blocks of a file are stored, all but the last are full, and their sizes add up. */
  ghost predicate FileSound(store: Store, scope: Scope, file: Object)
    requires file.File?
  {
    && (forall i :: 0 <= i < |file.blocks| ==>
          var key := Key(scope, Blocks, file.blocks[i]);
          && Readable(store, key)
          && 1 <= store[key].size <= MaxBlockSize
          && (i < |file.blocks| - 1 ==> store[key].size == MaxBlockSize))
    && BlockTotal(store, scope, file.blocks) == file.length
  }

  function BlockTotal(store: Store, scope: Scope, blocks: seq<Id>): nat {
    if blocks == [] then 0
    else
      var last := Key(scope, Blocks, blocks[|blocks| - 1]);
      BlockTotal(store, scope, blocks[..|blocks| - 1]) + (if Readable(store, last) then store[last].size else 0)
  }

  /** The object is stored, verified, and, if it is a file, consistent with its stored blocks. */
  ghost predicate Sound(store: Store, key: Key) {
    Readable(store, key) && (key.kind == Files ==> FileSound(store, key.scope, store[key]))
  }

  /** Everything reachable from `roots` is stored and sound. */
  ghost predicate SoundClosure(store: Store, roots: set<Key>) {
    forall k :: Reachable(store, roots, k) ==> Sound(store, k)
  }
}
