/**
  Offline garbage collection: mark everything reachable from the published commits, plan the
  expired files that are not marked, delete that plan one file at a time.
 */
module GarbageCollector {
  import opened Wrappers
  import opened ObjectGraph
  import opened Snapshots

  /** A file of the objects directory: a stored object, or a leftover upload temporary. */
  datatype Slot =
    | Stored(key: Key)
    | Temporary(scope: Scope, kind: Kind, leaf: string)

  datatype DiskFile = DiskFile(content: Object, modified: int, size: nat, regular: bool)

  type Disk = map<Slot, DiskFile>

  datatype GcError = GraceTooShort | Unreadable | Interrupted

  /** Totals of the planned files of one kind. */
  datatype KindStats = KindStats(count: nat, bytes: nat)

  const MinimumGracePeriod: int := 24 * 3600

  /** The objects the collector can read: regular files at object paths. */
  function View(disk: Disk): Store {
    map s | s in disk && s.Stored? && disk[s].regular :: s.key := disk[s].content
  }

  function SlotKind(slot: Slot): Kind {
    match slot
    case Stored(key) => key.kind
    case Temporary(_, kind, _) => kind
  }

  /** A file the plan takes: a regular file, not modified after the cutoff, that is not marked. */
  predicate Collectable(disk: Disk, marked: set<Key>, cutoff: int, slot: Slot) {
    && slot in disk
    && disk[slot].regular
    && disk[slot].modified <= cutoff
    && (slot.Stored? ==> slot.key !in marked)
  }

  ghost function DirectoryKeys(scope: Scope, ids: seq<Id>): set<Key> {
    set d | d in ids :: Key(scope, Directories, d)
  }

  ghost function CommitKeys(scope: Scope, ids: seq<Id>): set<Key> {
    set c | c in ids :: Key(scope, Commits, c)
  }

  /**
    The state of marking: marked keys are reachable and, blocks apart, were read and verified;
    pending keys are reachable; and everything a marked object refers to is marked or pending.
   */
  ghost predicate Marking(store: Store, roots: set<Key>, marked: set<Key>, pending: set<Key>) {
    && (forall k :: k in marked ==> Reachable(store, roots, k) && (k.kind != Blocks ==> Readable(store, k)))
    && (forall k :: k in pending ==> Reachable(store, roots, k))
    && ClosedUpTo(store, marked, pending)
  }

  /** A reachable metadata object is missing or fails verification. */
  ghost predicate Damaged(store: Store, roots: set<Key>) {
    exists k :: Reachable(store, roots, k) && k.kind != Blocks && !Readable(store, k)
  }

  /** Marking one pending key replaces it by its references among what is pending. */
  lemma MarkOne(store: Store, roots: set<Key>, marked: set<Key>, pending: set<Key>, key: Key)
    requires Marking(store, roots, marked, pending + {key})
    requires Readable(store, key)
    ensures Marking(store, roots, marked + {key}, pending + Refs(store, key))
  {
    StepsReachable(store, roots, key);
  }

  /** What is marked need not stay pending. */
  lemma Settle(store: Store, roots: set<Key>, marked: set<Key>, pending: set<Key>, done: set<Key>)
    requires Marking(store, roots, marked, pending + done)
    requires done <= marked + pending
    ensures Marking(store, roots, marked, pending)
  {
  }

  lemma PoppedKeys(scope: Scope, ids: seq<Id>)
    requires ids != []
    ensures DirectoryKeys(scope, ids) ==
            DirectoryKeys(scope, ids[..|ids| - 1]) + {Key(scope, Directories, ids[|ids| - 1])}
    ensures CommitKeys(scope, ids) == CommitKeys(scope, ids[..|ids| - 1]) + {Key(scope, Commits, ids[|ids| - 1])}
  {
    assert ids == ids[..|ids| - 1] + [ids[|ids| - 1]];
  }

  /** Once every file of a directory is marked and every subdirectory queued, nothing of it is outstanding. */
  lemma EntriesSettled(scope: Scope, entries: seq<Entry>, marked: set<Key>, queued: seq<Id>)
    requires forall j :: 0 <= j < |entries| ==>
               if entries[j].entryType == FileEntry then Key(scope, Files, entries[j].id) in marked
               else entries[j].id in queued
    requires forall d :: d in queued ==> Key(scope, Directories, d) in ObjectRefs(scope, Directory(entries))
    ensures ObjectRefs(scope, Directory(entries)) <= marked + DirectoryKeys(scope, queued)
    ensures DirectoryKeys(scope, queued) <= ObjectRefs(scope, Directory(entries))
  {
  }

  // ---- what the totals of a plan mean ----

  function CountOf(plan: seq<Slot>, kind: Kind): nat {
    if plan == [] then 0
    else CountOf(plan[..|plan| - 1], kind) + (if SlotKind(plan[|plan| - 1]) == kind then 1 else 0)
  }

  function BytesOf(disk: Disk, plan: seq<Slot>, kind: Kind): nat
    requires forall s :: s in plan ==> s in disk
  {
    if plan == [] then 0
    else
      var last := plan[|plan| - 1];
      BytesOf(disk, plan[..|plan| - 1], kind) + (if SlotKind(last) == kind then disk[last].size else 0)
  }

  /** `stats` counts the planned files and their bytes, kind by kind. */
  ghost predicate Totals(disk: Disk, plan: seq<Slot>, stats: map<Kind, KindStats>) {
    && (forall s :: s in plan ==> s in disk)
    && (forall kind :: kind in stats && stats[kind] == KindStats(CountOf(plan, kind), BytesOf(disk, plan, kind)))
  }

  lemma NoTotals(disk: Disk, stats: map<Kind, KindStats>)
    requires stats == map[Blocks := KindStats(0, 0), Files := KindStats(0, 0),
                          Directories := KindStats(0, 0), Commits := KindStats(0, 0)]
    ensures Totals(disk, [], stats)
  {
    forall kind: Kind
      ensures kind in stats && stats[kind] == KindStats(0, 0)
    {
      assert kind == Blocks || kind == Files || kind == Directories || kind == Commits;
    }
  }

  lemma TotalsGrow(disk: Disk, plan: seq<Slot>, slot: Slot, stats: map<Kind, KindStats>)
    requires Totals(disk, plan, stats) && slot in disk
    ensures var kind := SlotKind(slot);
            Totals(disk, plan + [slot],
                   stats[kind := KindStats(stats[kind].count + 1, stats[kind].bytes + disk[slot].size)])
  {
    var longer := plan + [slot];
    assert longer[..|longer| - 1] == plan;
  }

  /**
    The outcome of a collection on the disk, however far it got: no file is changed, and every
    deleted file was collectable for the objects reachable from `roots`.
   */
  ghost predicate CollectedFrom(before: Disk, after: Disk, roots: set<Key>, cutoff: int) {
    && after.Keys <= before.Keys
    && (forall s :: s in after ==> after[s] == before[s])
    && (forall s :: s in before && s !in after ==>
          && before[s].regular && before[s].modified <= cutoff
          && (s.Stored? ==> !Reachable(View(before), roots, s.key)))
  }

  /** The mark phase: the objects it reads, the published commits, and the mark set it grows. */
  class Marker {
    const store: Store
    const published: seq<Key>
    ghost const roots: set<Key>
    var marked: set<Key>

    constructor (store: Store, published: seq<Key>)
      ensures this.store == store && this.published == published && marked == {}
      ensures roots == set k | k in published
    {
      this.store := store;
      this.published := published;
      this.roots := set k | k in published;
      marked := {};
    }

    method MarkFile(scope: Scope, id: Id, ghost rest: set<Key>) returns (ok: bool)
      requires Marking(store, roots, marked, rest + {Key(scope, Files, id)})
      modifies this`marked
      ensures old(marked) <= marked
      ensures ok ==> Key(scope, Files, id) in marked && Marking(store, roots, marked, rest)
      ensures !ok ==> Damaged(store, roots)
    {
      var key := Key(scope, Files, id);
      if key in marked {
        Settle(store, roots, marked, rest, {key});
        return true;
      }
      if !Readable(store, key) {
        return false;
      }
      MarkOne(store, roots, marked, rest, key);
      var blocks := set b | b in store[key].blocks :: Key(scope, Blocks, b);
      assert blocks == Refs(store, key);
      marked := marked + {key} + blocks;
      Settle(store, roots, marked, rest, blocks);
      return true;
    }

    /** Queues the subdirectories of a directory and marks its files. */
    method MarkEntries(scope: Scope, entries: seq<Entry>, ghost rest: set<Key>) returns (ok: bool, queued: seq<Id>)
      requires Marking(store, roots, marked, rest + ObjectRefs(scope, Directory(entries)))
      modifies this`marked
      ensures old(marked) <= marked
      ensures ok ==> Marking(store, roots, marked, rest + DirectoryKeys(scope, queued))
      ensures !ok ==> Damaged(store, roots)
    {
      ghost var refs := ObjectRefs(scope, Directory(entries));
      queued := [];
      var i := 0;
      while i < |entries|
        invariant 0 <= i <= |entries|
        invariant old(marked) <= marked
        invariant forall d :: d in queued ==> Key(scope, Directories, d) in refs
        invariant forall j :: 0 <= j < i ==>
                    if entries[j].entryType == FileEntry then Key(scope, Files, entries[j].id) in marked
                    else entries[j].id in queued
        invariant Marking(store, roots, marked, rest + refs)
      {
        var entry := entries[i];
        match entry.entryType {
          case DirectoryEntry =>
            queued := queued + [entry.id];
          case FileEntry =>
            assert Key(scope, Files, entry.id) in refs;
            assert rest + refs + {Key(scope, Files, entry.id)} == rest + refs;
            var done := MarkFile(scope, entry.id, rest + refs);
            if !done {
              return false, [];
            }
        }
        i := i + 1;
      }
      EntriesSettled(scope, entries, marked, queued);
      assert rest + refs == rest + DirectoryKeys(scope, queued) + refs;
      Settle(store, roots, marked, rest + DirectoryKeys(scope, queued), refs);
      return true, queued;
    }

    method MarkSnapshot(scope: Scope, rootId: Id, ghost rest: set<Key>) returns (ok: bool)
      requires Marking(store, roots, marked, rest + {Key(scope, Directories, rootId)})
      modifies this`marked
      ensures old(marked) <= marked
      ensures ok ==> Key(scope, Directories, rootId) in marked && Marking(store, roots, marked, rest)
      ensures !ok ==> Damaged(store, roots)
    {
      ghost var rootKey := Key(scope, Directories, rootId);
      var directories := [rootId];
      assert DirectoryKeys(scope, directories) == {rootKey};
      while directories != []
        invariant old(marked) <= marked
        invariant Marking(store, roots, marked, rest + DirectoryKeys(scope, directories))
        invariant rootKey in DirectoryKeys(scope, directories) + marked
        decreases store.Keys - marked, |directories|
      {
        var id := directories[|directories| - 1];
        var key := Key(scope, Directories, id);
        PoppedKeys(scope, directories);
        directories := directories[..|directories| - 1];
        ghost var pending := DirectoryKeys(scope, directories);
        assert rest + (pending + {key}) == rest + pending + {key};
        if key in marked {
          Settle(store, roots, marked, rest + pending, {key});
          continue;
        }
        if !Readable(store, key) {
          return false;
        }
        MarkOne(store, roots, marked, rest + pending, key);
        marked := marked + {key};
        var done, queued := MarkEntries(scope, store[key].entries, rest + pending);
        if !done {
          return false;
        }
        assert rest + DirectoryKeys(scope, directories + queued) == rest + pending + DirectoryKeys(scope, queued);
        directories := directories + queued;
      }
      assert rest + DirectoryKeys(scope, []) == rest;
      return true;
    }

    method MarkCommitGraph(root: Key) returns (ok: bool)
      requires root in roots && root.kind == Commits
      requires Marking(store, roots, marked, {})
      modifies this`marked
      ensures old(marked) <= marked
      ensures ok ==> root in marked && Marking(store, roots, marked, {})
      ensures !ok ==> Damaged(store, roots)
    {
      var scope := root.scope;
      var commits := [root.id];
      assert CommitKeys(scope, commits) == {root};
      RootReachable(store, roots, root);
      while commits != []
        invariant old(marked) <= marked
        invariant Marking(store, roots, marked, CommitKeys(scope, commits))
        invariant root in CommitKeys(scope, commits) + marked
        decreases store.Keys - marked, |commits|
      {
        var id := commits[|commits| - 1];
        var key := Key(scope, Commits, id);
        PoppedKeys(scope, commits);
        commits := commits[..|commits| - 1];
        ghost var pending := CommitKeys(scope, commits);
        if key in marked {
          Settle(store, roots, marked, pending, {key});
          continue;
        }
        if !Readable(store, key) {
          return false;
        }
        var commit := store[key].commit;
        MarkOne(store, roots, marked, pending, key);
        marked := marked + {key};
        assert CommitKeys(scope, commits + commit.parents) == pending + CommitKeys(scope, commit.parents);
        assert Refs(store, key) == {Key(scope, Directories, commit.root)} + CommitKeys(scope, commit.parents);
        assert pending + Refs(store, key) ==
               CommitKeys(scope, commits + commit.parents) + {Key(scope, Directories, commit.root)};
        commits := commits + commit.parents;
        var done := MarkSnapshot(scope, commit.root, CommitKeys(scope, commits));
        if !done {
          return false;
        }
      }
      assert CommitKeys(scope, []) == {};
      return true;
    }

    /**
      The mark phase. When it succeeds the mark set is exactly what is reachable from the published
      commits; it fails exactly when a reachable commit, directory or file cannot be read.
     */
    method MarkPublished() returns (ok: bool)
      requires marked == {} && roots == set k | k in published
      requires forall k :: k in published ==> k.kind == Commits
      modifies this`marked
      ensures ok ==> forall k :: k in marked <==> Reachable(store, roots, k)
      ensures ok ==> forall k :: k in marked <==> Belongs(store, roots, k)
      ensures ok <==> !Damaged(store, roots)
    {
      var i := 0;
      while i < |published|
        invariant 0 <= i <= |published|
        invariant Marking(store, roots, marked, {})
        invariant forall j :: 0 <= j < i ==> published[j] in marked
      {
        var done := MarkCommitGraph(published[i]);
        if !done {
          return false;
        }
        i := i + 1;
      }
      forall k | Reachable(store, roots, k)
        ensures k in marked
      {
        ClosedHoldsReachable(store, roots, marked, k);
      }
      AllBelong(store, roots);
      return true;
    }
  }

  class Collector {
    const published: seq<Key>
    var disk: Disk
    var stats: map<Kind, KindStats>

    constructor (published: seq<Key>, disk: Disk)
      ensures this.published == published && this.disk == disk
    {
      this.published := published;
      this.disk := disk;
      stats := map[];
    }

    ghost function Roots(): set<Key> {
      set k | k in published
    }

    /** The plan: the collectable files of the walk, in walk order, with the totals by kind. */
    method Plan(walk: seq<Slot>, marked: set<Key>, cutoff: int) returns (plan: seq<Slot>)
      requires forall s :: s in walk ==> s in disk
      modifies this`stats
      ensures forall s :: s in plan <==> s in walk && Collectable(disk, marked, cutoff, s)
      ensures Totals(disk, plan, stats)
    {
      stats := map[Blocks := KindStats(0, 0), Files := KindStats(0, 0),
                   Directories := KindStats(0, 0), Commits := KindStats(0, 0)];
      plan := [];
      NoTotals(disk, stats);
      var i := 0;
      while i < |walk|
        invariant 0 <= i <= |walk|
        invariant forall s :: s in plan <==> s in walk[..i] && Collectable(disk, marked, cutoff, s)
        invariant Totals(disk, plan, stats)
      {
        var slot := walk[i];
        assert walk[..i + 1] == walk[..i] + [slot];
        if Collectable(disk, marked, cutoff, slot) {
          var kind := SlotKind(slot);
          var grown := stats[kind := KindStats(stats[kind].count + 1, stats[kind].bytes + disk[slot].size)];
          TotalsGrow(disk, plan, slot, stats);
          plan := plan + [slot];
          stats := grown;
        }
        i := i + 1;
      }
      assert walk[..|walk|] == walk;
    }

    /**
      One collection. `deletions` is how many files are deleted before the run is cut, if it is.
      Whatever happens, only expired files that no published commit reaches are gone; an uncut run
      deletes all of them.
     */
    method Collect(walk: seq<Slot>, dryRun: bool, grace: int, now: int, deletions: nat)
      returns (r: Result<map<Kind, KindStats>, GcError>)
      requires forall k :: k in published ==> k.kind == Commits
      requires forall s :: s in walk <==> s in disk
      modifies this
      ensures CollectedFrom(old(disk), disk, Roots(), now - grace)
      ensures grace < MinimumGracePeriod <==> r == Err(GraceTooShort)
      ensures r.Err? && r.error in {GraceTooShort, Unreadable} ==> disk == old(disk)
      ensures grace >= MinimumGracePeriod ==> (r == Err(Unreadable) <==> Damaged(View(old(disk)), Roots()))
      ensures dryRun ==> disk == old(disk)
      ensures forall k :: Belongs(View(old(disk)), Roots(), k) ==> StillThere(View(old(disk)), View(disk), k)
      ensures r.Ok? && !dryRun ==>
                forall s :: s in disk <==> s in old(disk) &&
                                           !(&& old(disk)[s].regular && old(disk)[s].modified <= now - grace
                                             && (s.Stored? ==> !Belongs(View(old(disk)), Roots(), s.key)))
    {
      AllBelong(View(disk), Roots());
      if grace < MinimumGracePeriod {
        return Err(GraceTooShort);
      }
      var marker := new Marker(View(disk), published);
      var ok := marker.MarkPublished();
      if !ok {
        return Err(Unreadable);
      }
      var candidates := Plan(walk, marker.marked, now - grace);
      if dryRun {
        return Ok(stats);
      }
      ghost var before := disk;
      var i := 0;
      while i < |candidates|
        invariant 0 <= i <= |candidates|
        invariant disk == before - set s | s in candidates[..i]
      {
        if i == deletions {
          return Err(Interrupted);
        }
        disk := disk - {candidates[i]};
        assert candidates[..i + 1] == candidates[..i] + [candidates[i]];
        i := i + 1;
      }
      return Ok(stats);
    }
  }

  /** For published commits, what is reachable is what belongs to their histories. */
  lemma AllBelong(store: Store, roots: set<Key>)
    requires forall k :: k in roots ==> k.kind == Commits
    ensures forall k :: Reachable(store, roots, k) <==> Belongs(store, roots, k)
  {
    forall k
      ensures Reachable(store, roots, k) <==> Belongs(store, roots, k)
    {
      ReachableIsHistory(store, roots, k);
    }
  }

  /** Collecting, cut or not, leaves the history of every published commit as it was: commits, names, files and blocks. */
  lemma CollectKeepsHistory(before: Disk, after: Disk, roots: set<Key>, cutoff: int, from: Key, key: Key)
    requires CollectedFrom(before, after, roots, cutoff) && (forall k :: k in roots ==> k.kind == Commits)
    requires from in roots && InHistory(View(before), from, key)
    ensures StillThere(View(before), View(after), key) && InHistory(View(after), from, key)
  {
    AllBelong(View(before), roots);
    forall k | InHistory(View(before), from, k)
      ensures StillThere(View(before), View(after), k)
    {
      assert Belongs(View(before), roots, k);
      KeptInView(before, after, roots, cutoff, k);
    }
    HistoryStays(View(before), View(after), from, key);
  }

  lemma KeptInView(before: Disk, after: Disk, roots: set<Key>, cutoff: int, key: Key)
    requires CollectedFrom(before, after, roots, cutoff) && Reachable(View(before), roots, key)
    ensures StillThere(View(before), View(after), key)
  {
    if key in View(before) {
      assert Stored(key) in before && before[Stored(key)].regular;
      assert Stored(key) in after;
    }
  }

  /** Collecting, cut or not, keeps every object a published commit reaches, with its content. */
  lemma CollectKeepsReachable(before: Disk, after: Disk, roots: set<Key>, cutoff: int, key: Key)
    requires CollectedFrom(before, after, roots, cutoff)
    requires Reachable(View(before), roots, key)
    ensures Readable(View(before), key) ==> Readable(View(after), key) && View(after)[key] == View(before)[key]
  {
    if Readable(View(before), key) {
      var slot :| slot in before && slot.Stored? && before[slot].regular && slot.key == key;
      assert slot == Stored(key);
      assert slot in after;
    }
  }

  /** So a sound published closure is sound after a collection, and nothing more becomes reachable. */
  lemma CollectKeepsClosure(before: Disk, after: Disk, roots: set<Key>, cutoff: int)
    requires CollectedFrom(before, after, roots, cutoff)
    requires SoundClosure(View(before), roots)
    ensures SoundClosure(View(after), roots)
  {
    var store, left := View(before), View(after);
    forall k | Reachable(left, roots, k)
      ensures Sound(left, k)
    {
      assert forall k' :: k' in left ==> k' in store && left[k'] == store[k'];
      forall k' | Reachable(store, roots, k') && k' in store
        ensures k' in left && left[k'] == store[k']
      {
        CollectKeepsReachable(before, after, roots, cutoff, k');
      }
      ReachableSame(store, left, roots, k);
      assert Sound(store, k);
      if k.kind == Files {
        SoundFileKept(store, left, roots, k);
      }
    }
  }

  lemma SoundFileKept(store: Store, left: Store, roots: set<Key>, key: Key)
    requires Reachable(store, roots, key) && key.kind == Files && Sound(store, key)
    requires forall k :: Reachable(store, roots, k) && k in store ==> k in left && left[k] == store[k]
    ensures Sound(left, key)
  {
    var file := store[key];
    forall i | 0 <= i < |file.blocks|
      ensures Key(key.scope, Blocks, file.blocks[i]) in left
      ensures left[Key(key.scope, Blocks, file.blocks[i])] == store[Key(key.scope, Blocks, file.blocks[i])]
    {
      var block := Key(key.scope, Blocks, file.blocks[i]);
      assert block in Refs(store, key);
      StepReachable(store, roots, key, block);
    }
    SameTotal(store, left, key.scope, file.blocks);
  }

  lemma SameTotal(store: Store, other: Store, scope: Scope, blocks: seq<Id>)
    requires forall b :: b in blocks ==>
               Key(scope, Blocks, b) in store && Key(scope, Blocks, b) in other &&
               store[Key(scope, Blocks, b)] == other[Key(scope, Blocks, b)]
    ensures BlockTotal(store, scope, blocks) == BlockTotal(other, scope, blocks)
  {
  }
}
