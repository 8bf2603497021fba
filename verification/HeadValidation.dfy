/**
  The checks the server makes before it moves a library's Head: the candidate commit, every
  directory and file of its snapshot, and, for a merge, every commit of its second-parent chain.

  One validation reads one state of the store and of the history roles.
 */
module HeadValidation {
  import opened Wrappers
  import opened ObjectGraph
  import opened Snapshots

  datatype RoleKind = Mainline | MergeSource

  /** A row of the published-role table. */
  datatype Role = Role(commitId: Id, kind: RoleKind, mainlineId: Id)

  datatype HeadError = PayloadTooLarge | InvalidSnapshot | CorruptObject

  /** What the metadata tables say of one library. */
  datatype Library = Library(head: Option<Id>, version: nat, published: set<Id>, roles: map<Id, Role>)

  datatype Limits = Limits(
    snapshotDepth: nat, traversalContexts: nat, validatedObjects: nat, commitDepth: nat, introducedCommits: nat)

  const MaxMissingObjects: nat := 100
  const MaxSnapshotPathBytes: nat := 1024

  predicate ValidCommitParents(parents: seq<Id>, head: Option<Id>) {
    match head
    case None => parents == []
    case Some(id) => (|parents| == 1 || |parents| == 2) && parents[0] == id
  }

  /** The commit is published as a mainline commit of its own. */
  predicate IsMainline(library: Library, id: Id) {
    && id in library.published
    && id in library.roles
    && library.roles[id] == Role(id, Mainline, id)
  }

  /** The stored commit with this id; meaningful where it is readable. */
  function CommitAt(store: Store, scope: Scope, id: Id): Commit
    requires Readable(store, Key(scope, Commits, id))
  {
    store[Key(scope, Commits, id)].commit
  }

  /**
    `chain` starts at a commit, follows second parents, and ends at the first commit with a
    single parent; none of its commits is published and every first parent is a mainline commit.
   */
  ghost predicate IsSourceChain(store: Store, scope: Scope, library: Library, start: Id, chain: seq<Id>) {
    && chain != [] && chain[0] == start
    && (forall i, j :: 0 <= i < j < |chain| ==> chain[i] != chain[j])
    && (forall i :: 0 <= i < |chain| ==> SourceLink(store, scope, library, chain, i))
  }

  ghost predicate SourceLink(store: Store, scope: Scope, library: Library, chain: seq<Id>, i: nat)
    requires i < |chain|
  {
    && Readable(store, Key(scope, Commits, chain[i]))
    && chain[i] !in library.published
    && var commit := CommitAt(store, scope, chain[i]);
       && commit.author == scope.owner
       && 1 <= |commit.parents| <= 2
       && IsMainline(library, commit.parents[0])
       && (if i + 1 < |chain| then |commit.parents| == 2 && commit.parents[1] == chain[i + 1]
           else |commit.parents| == 1)
       && SoundClosure(store, {Key(scope, Directories, commit.root)})
  }

  /** What one commit of a source chain must be, but for the commit after it. */
  ghost predicate SoundSource(store: Store, scope: Scope, library: Library, id: Id) {
    && Readable(store, Key(scope, Commits, id)) && id !in library.published
    && var commit := CommitAt(store, scope, id);
       && commit.author == scope.owner && 1 <= |commit.parents| <= 2 && IsMainline(library, commit.parents[0])
       && SoundClosure(store, {Key(scope, Directories, commit.root)})
  }

  /** The rows a candidate introduces: itself on the mainline, then its merge sources. */
  function RolesFor(commitId: Id, sources: seq<Id>): seq<Role> {
    [Role(commitId, Mainline, commitId)] + seq(|sources|, i requires 0 <= i < |sources| => Role(sources[i], MergeSource, commitId))
  }

  /** What a successful validation with nothing missing establishes. */
  ghost predicate CandidateSound(store: Store, scope: Scope, library: Library, commitId: Id, roles: seq<Role>) {
    && Readable(store, Key(scope, Commits, commitId))
    && var commit := CommitAt(store, scope, commitId);
       && commit.author == scope.owner
       && ValidCommitParents(commit.parents, library.head)
       && (library.head.Some? ==> IsMainline(library, library.head.value))
       && SoundClosure(store, {Key(scope, Directories, commit.root)})
       && (|commit.parents| < 2 ==> roles == RolesFor(commitId, []))
       && (|commit.parents| == 2 ==>
             exists chain :: IsSourceChain(store, scope, library, commit.parents[1], chain) && roles == RolesFor(commitId, chain))
  }

  /** The commit is stored, the owner's, and everything that names lead to from its root is whole. */
  ghost predicate CommitWhole(store: Store, scope: Scope, id: Id) {
    && CommitIn(store, scope, id) && store[Key(scope, Commits, id)].commit.author == scope.owner
    && SnapshotWhole(store, scope, store[Key(scope, Commits, id)].commit.root)
  }

  /** The commit is published and has a row of its own on the mainline. */
  predicate OnMainline(library: Library, id: Id) {
    id in library.published && id in library.roles && library.roles[id].commitId == id && library.roles[id].mainlineId == id && library.roles[id].kind.Mainline?
  }

  /** A merge source: whole, unpublished, on a mainline commit, and, but for the last, with the next source merged in. */
  ghost predicate FollowsAt(store: Store, scope: Scope, library: Library, sources: seq<Id>, i: nat)
    requires i < |sources|
  {
    && CommitWhole(store, scope, sources[i]) && sources[i] !in library.published
    && var parents := store[Key(scope, Commits, sources[i])].commit.parents;
       parents != [] && OnMainline(library, parents[0]) && parents[1..] == if i + 1 < |sources| then [sources[i + 1]] else []
  }

  ghost predicate SourcesFollow(store: Store, scope: Scope, library: Library, start: Id, sources: seq<Id>) {
    && sources != [] && sources[0] == start && (forall i, j :: 0 <= i < j < |sources| ==> sources[i] != sources[j])
    && forall i {:trigger FollowsAt(store, scope, library, sources, i)} :: 0 <= i < |sources| ==> FollowsAt(store, scope, library, sources, i)
  }

  lemma SourceMeans(store: Store, scope: Scope, library: Library, sources: seq<Id>, i: nat)
    requires i < |sources|
    ensures SourceLink(store, scope, library, sources, i) <==> FollowsAt(store, scope, library, sources, i)
  {
    if CommitIn(store, scope, sources[i]) {
      var commit := store[Key(scope, Commits, sources[i])].commit;
      SoundIsSnapshotWhole(store, scope, commit.root);
      if |commit.parents| == 2 {
        assert commit.parents[1..] == [commit.parents[1]];
      }
    }
  }

  lemma ChainFollows(store: Store, scope: Scope, library: Library, start: Id, sources: seq<Id>)
    ensures IsSourceChain(store, scope, library, start, sources) <==> SourcesFollow(store, scope, library, start, sources)
  {
    forall i | 0 <= i < |sources|
      ensures SourceLink(store, scope, library, sources, i) <==> FollowsAt(store, scope, library, sources, i)
    {
      SourceMeans(store, scope, library, sources, i);
    }
  }

  /**
    What a sound candidate with these sources is, in terms of stored commits, names, files and blocks: a
    first commit without parents, or one on the current Head, which is mainline; alone, or with the
    newest of its sources as second parent.
   */
  lemma CandidateMeans(store: Store, scope: Scope, library: Library, commitId: Id, sources: seq<Id>)
    ensures CandidateSound(store, scope, library, commitId, RolesFor(commitId, sources)) <==>
              && CommitWhole(store, scope, commitId)
              && var parents := store[Key(scope, Commits, commitId)].commit.parents;
                 if library.head.None? then parents == [] && sources == []
                 else && parents != [] && parents[0] == library.head.value && OnMainline(library, library.head.value)
                      && if |parents| == 1 then sources == [] else |parents| == 2 && SourcesFollow(store, scope, library, parents[1], sources)
  {
    if CommitIn(store, scope, commitId) {
      var commit := store[Key(scope, Commits, commitId)].commit;
      SoundIsSnapshotWhole(store, scope, commit.root);
      if |commit.parents| == 2 {
        ChainFollows(store, scope, library, commit.parents[1], sources);
      }
      if CandidateSound(store, scope, library, commitId, RolesFor(commitId, sources)) {
        SourcesAreChain(store, scope, library, commitId, sources);
      }
    }
  }

  // ---- what a snapshot must keep to besides being sound ----

  /** How many bytes the path has, its separators counted. */
  function NameBytes(trail: seq<Entry>): nat {
    if trail == [] then 0
    else
      var above := NameBytes(trail[..|trail| - 1]);
      |trail[|trail| - 1].name| + if above != 0 then above + 1 else 0
  }

  /** The directories from the root to the end of the trail. */
  function Above(root: Id, trail: seq<Entry>): seq<Id> {
    if trail == [] then [root] else Above(root, trail[..|trail| - 1]) + [trail[|trail| - 1].id]
  }

  /** A name too long, too deep, or of a directory that it is inside of. */
  predicate Misfit(store: Store, scope: Scope, depth: nat, root: Id, trail: seq<Entry>) {
    && trail != [] && Trail(store, scope, root, trail)
    && (|| NameBytes(trail) > 1024 || |trail| == depth
        || (trail[|trail| - 1].entryType.DirectoryEntry? && trail[|trail| - 1].id in Above(root, trail[..|trail| - 1])))
  }

  ghost predicate HasMisfit(store: Store, scope: Scope, depth: nat, root: Id) {
    exists trail :: Misfit(store, scope, depth, root, trail)
  }

  /** The snapshot of the stored commit has a misfit. */
  ghost predicate CommitMisfit(store: Store, scope: Scope, depth: nat, id: Id) {
    Readable(store, Key(scope, Commits, id)) && HasMisfit(store, scope, depth, CommitAt(store, scope, id).root)
  }

  ghost predicate AllFit(store: Store, scope: Scope, depth: nat, ids: seq<Id>) {
    forall id {:trigger CommitMisfit(store, scope, depth, id)} :: id in ids ==> !CommitMisfit(store, scope, depth, id)
  }

  lemma FitMore(store: Store, scope: Scope, depth: nat, ids: seq<Id>, id: Id)
    requires AllFit(store, scope, depth, ids) && !CommitMisfit(store, scope, depth, id)
    ensures AllFit(store, scope, depth, ids + [id])
  {
  }

  // ---- the traversal's caches ----

  /** An id the validation reported really is absent under one of the kinds it looks up. */
  ghost predicate Absent(store: Store, scope: Scope, id: Id) {
    exists kind :: Key(scope, kind, id) !in store
  }

  /** What a directory names was examined, or its subdirectory is queued. */
  ghost predicate EntriesExamined(directories: map<Id, Option<seq<Entry>>>, files: set<Id>, queued: set<Id>) {
    forall id :: id in directories && directories[id].Some? ==>
      Examined(directories[id].value, directories.Keys, files, queued)
  }

  ghost predicate Examined(entries: seq<Entry>, directories: set<Id>, files: set<Id>, queued: set<Id>) {
    forall e :: e in entries ==> if e.entryType == FileEntry then e.id in files else e.id in directories || e.id in queued
  }

  /** The same for every cached directory but one. */
  ghost predicate OthersExamined(directories: map<Id, Option<seq<Entry>>>, files: set<Id>, queued: set<Id>, but: Id) {
    forall id :: id in directories && id != but && directories[id].Some? ==>
      Examined(directories[id].value, directories.Keys, files, queued)
  }

  datatype DirectoryWork = DirectoryWork(id: Id, pathBytes: nat, depth: nat, ancestors: seq<Id>)

  /** The work is for the directory that the trail leads to. */
  predicate WorkAt(store: Store, scope: Scope, root: Id, w: DirectoryWork, trail: seq<Entry>) {
    && Trail(store, scope, root, trail) && End(scope, root, trail) == Key(scope, Directories, w.id)
    && w.pathBytes == NameBytes(trail) && w.depth == |trail| + 1 && w.ancestors == Above(root, trail)
  }

  ghost predicate Located(store: Store, scope: Scope, root: Id, w: DirectoryWork) {
    exists trail :: WorkAt(store, scope, root, w, trail)
  }

  ghost predicate AllLocated(store: Store, scope: Scope, root: Id, queue: seq<DirectoryWork>) {
    forall w {:trigger Located(store, scope, root, w)} :: w in queue ==> Located(store, scope, root, w)
  }

  /** Every file that the entries name is sound. */
  ghost predicate FilesSound(store: Store, scope: Scope, entries: seq<Entry>) {
    forall e :: e in entries && e.entryType.FileEntry? ==> Sound(store, Key(scope, Files, e.id))
  }

  lemma WorkGrows(store: Store, scope: Scope, root: Id, w: DirectoryWork, trail: seq<Entry>, entries: seq<Entry>, e: Entry)
    requires WorkAt(store, scope, root, w, trail) && Key(scope, Directories, w.id) in store
    requires store[Key(scope, Directories, w.id)] == Directory(entries) && e in entries
    ensures Trail(store, scope, root, trail + [e]) && (trail + [e])[..|trail|] == trail
    ensures NameBytes(trail + [e]) == |e.name| + if w.pathBytes != 0 then w.pathBytes + 1 else 0
    ensures e.entryType.DirectoryEntry? ==>
              Located(store, scope, root, DirectoryWork(e.id, NameBytes(trail + [e]), w.depth + 1, w.ancestors + [e.id]))
  {
    TrailGrows(store, scope, root, trail, e);
    assert (trail + [e])[..|trail|] == trail;
    if e.entryType.DirectoryEntry? {
      assert WorkAt(store, scope, root, DirectoryWork(e.id, NameBytes(trail + [e]), w.depth + 1, w.ancestors + [e.id]), trail + [e]);
    }
  }

  lemma WorkMisfits(store: Store, scope: Scope, depth: nat, root: Id, w: DirectoryWork, trail: seq<Entry>, e: Entry)
    requires WorkAt(store, scope, root, w, trail) && Trail(store, scope, root, trail + [e]) && (trail + [e])[..|trail|] == trail
    requires NameBytes(trail + [e]) > 1024 || w.depth == depth || (e.entryType.DirectoryEntry? && e.id in w.ancestors)
    ensures HasMisfit(store, scope, depth, root)
  {
    assert Misfit(store, scope, depth, root, trail + [e]);
  }

  /** What is checked of the name of an entry. */
  predicate EntryFits(w: DirectoryWork, depth: nat, e: Entry) {
    && |e.name| + (if w.pathBytes != 0 then w.pathBytes + 1 else 0) <= 1024 && w.depth != depth
    && (e.entryType.DirectoryEntry? ==> e.id !in w.ancestors)
  }

  function NextWork(w: DirectoryWork, e: Entry): DirectoryWork {
    DirectoryWork(e.id, |e.name| + (if w.pathBytes != 0 then w.pathBytes + 1 else 0), w.depth + 1, w.ancestors + [e.id])
  }

  /** The entry fits, and if it is a directory it is queued. */
  predicate EntryMet(w: DirectoryWork, depth: nat, e: Entry, queue: seq<DirectoryWork>) {
    EntryFits(w, depth, e) && (e.entryType.DirectoryEntry? ==> NextWork(w, e) in queue)
  }

  predicate Entered(store: Store, scope: Scope, depth: nat, w: DirectoryWork, queue: seq<DirectoryWork>) {
    DirectoryIn(store, scope, w.id) && forall e :: e in store[Key(scope, Directories, w.id)].entries ==> EntryMet(w, depth, e, queue)
  }

  predicate MetAt(store: Store, scope: Scope, root: Id, queue: seq<DirectoryWork>, trail: seq<Entry>, i: nat, w: DirectoryWork) {
    i < |trail| && w in queue && WorkAt(store, scope, root, w, trail[..i])
  }

  /** Every misfit lies below some queued directory. */
  ghost predicate Awaited(store: Store, scope: Scope, depth: nat, root: Id, queue: seq<DirectoryWork>) {
    forall trail {:trigger Misfit(store, scope, depth, root, trail)} :: Misfit(store, scope, depth, root, trail) ==>
      exists i: nat, w :: MetAt(store, scope, root, queue, trail, i, w)
  }

  lemma MetStays(w: DirectoryWork, depth: nat, entries: seq<Entry>, queue: seq<DirectoryWork>, more: seq<DirectoryWork>)
    requires queue <= more && forall e :: e in entries ==> EntryMet(w, depth, e, queue)
    ensures forall e :: e in entries ==> EntryMet(w, depth, e, more)
  {
    forall v | v in queue
      ensures v in more
    {
      assert v in more[..|queue|];
    }
  }

  lemma StartAwaits(store: Store, scope: Scope, depth: nat, root: Id)
    ensures Awaited(store, scope, depth, root, [DirectoryWork(root, 0, 1, [root])])
  {
    var w := DirectoryWork(root, 0, 1, [root]);
    assert WorkAt(store, scope, root, w, []);
    forall trail | Misfit(store, scope, depth, root, trail)
      ensures exists i: nat, v :: MetAt(store, scope, root, [w], trail, i, v)
    {
      assert trail[..0] == [];
      assert MetAt(store, scope, root, [w], trail, 0, w);
    }
  }

  /** Nothing is wrong with the entry of the trail in the directory that was entered, and the directory it names is queued. */
  lemma StepAwaits(store: Store, scope: Scope, depth: nat, root: Id, w: DirectoryWork, next: seq<DirectoryWork>, trail: seq<Entry>, i: nat)
    requires i < |trail| && WorkAt(store, scope, root, w, trail[..i]) && Entered(store, scope, depth, w, next) && Misfit(store, scope, depth, root, trail)
    ensures i + 1 < |trail| && MetAt(store, scope, root, next, trail, i + 1, NextWork(w, trail[i]))
  {
    var e, part := trail[i], trail[..i];
    TrailShorter(store, scope, root, trail, i);
    assert EntryAt(store, scope, root, trail, i);
    assert EntryMet(w, depth, e, next);
    assert trail[..i + 1] == part + [e] && (part + [e])[..i] == part;
    assert trail[..|trail|] == trail;
    if i + 1 < |trail| {
      assert EntryAt(store, scope, root, trail, i + 1);
      WorkGrows(store, scope, root, w, part, store[Key(scope, Directories, w.id)].entries, e);
      assert WorkAt(store, scope, root, NextWork(w, e), part + [e]);
    }
  }

  lemma NextAwaits(store: Store, scope: Scope, depth: nat, root: Id, queue: seq<DirectoryWork>, next: seq<DirectoryWork>)
    requires queue != [] && Awaited(store, scope, depth, root, queue) && Entered(store, scope, depth, queue[0], next) && queue[1..] <= next
    ensures Awaited(store, scope, depth, root, next)
  {
    forall trail | Misfit(store, scope, depth, root, trail)
      ensures exists i: nat, w :: MetAt(store, scope, root, next, trail, i, w)
    {
      var i: nat, w :| MetAt(store, scope, root, queue, trail, i, w);
      if w == queue[0] {
        StepAwaits(store, scope, depth, root, w, next, trail, i);
      } else {
        assert w in queue[1..];
        assert w in next[..|queue[1..]|];
        assert MetAt(store, scope, root, next, trail, i, w);
      }
    }
  }

  lemma NoneAwaited(store: Store, scope: Scope, depth: nat, root: Id)
    requires Awaited(store, scope, depth, root, [])
    ensures !HasMisfit(store, scope, depth, root)
  {
  }

  /** In a sound snapshot the directory of a work is stored, and the files in it are sound. */
  lemma WorkSound(store: Store, scope: Scope, root: Id, w: DirectoryWork)
    requires Located(store, scope, root, w) && SoundClosure(store, {Key(scope, Directories, root)})
    ensures Readable(store, Key(scope, Directories, w.id)) && FilesSound(store, scope, store[Key(scope, Directories, w.id)].entries)
  {
    var roots := {Key(scope, Directories, root)};
    var trail :| WorkAt(store, scope, root, w, trail);
    RootReachable(store, roots, Key(scope, Directories, root));
    TrailReaches(store, roots, scope, root, trail);
    assert Sound(store, Key(scope, Directories, w.id));
    forall e | e in store[Key(scope, Directories, w.id)].entries && e.entryType.FileEntry?
      ensures Sound(store, Key(scope, Files, e.id))
    {
      EntryReached(store, roots, scope, w.id, e);
    }
  }

  class Validation {
    const store: Store
    const scope: Scope
    const library: Library
    const limits: Limits
    var missingIds: seq<Id>
    var missingSeen: set<Id>
    var truncated: bool
    var planned: set<(Kind, Id)>
    var commits: map<Id, Option<Commit>>
    var directories: map<Id, Option<seq<Entry>>>
    var files: set<Id>
    var blocks: map<Id, Option<nat>>
    var contexts: nat

    constructor (store: Store, scope: Scope, library: Library, limits: Limits)
      ensures this.store == store && this.scope == scope && this.library == library && this.limits == limits
      ensures Valid() && missingIds == []
    {
      this.store, this.scope, this.library, this.limits := store, scope, library, limits;
      missingIds, missingSeen, truncated, planned := [], {}, false, {};
      commits, directories, files, blocks, contexts := map[], map[], {}, map[], 0;
    }

    /** The report lists at least one id exactly when something is missing, and only absent ids. */
    ghost predicate Reporting()
      reads this
    {
      && (missingIds == [] <==> missingSeen == {})
      && |missingIds| <= MaxMissingObjects
      && (truncated ==> |missingIds| == MaxMissingObjects)
      && (forall id :: id in missingIds ==> id in missingSeen)
      && (forall id :: id in missingSeen ==> Absent(store, scope, id))
      && |planned| <= limits.validatedObjects
      && contexts <= limits.traversalContexts
    }

    /** No more directories can be entered, or no more objects looked at. */
    predicate AtLimit()
      reads this
    {
      contexts == limits.traversalContexts || |planned| == limits.validatedObjects
    }

    ghost predicate Caching()
      reads this
    {
      && (forall id :: id in commits ==>
            match commits[id]
            case None => id in missingSeen
            case Some(commit) => Readable(store, Key(scope, Commits, id)) && CommitAt(store, scope, id) == commit)
      && (forall id :: id in directories ==>
            match directories[id]
            case None => id in missingSeen
            case Some(entries) =>
              Key(scope, Directories, id) in store && store[Key(scope, Directories, id)] == Directory(entries))
      && (forall id :: id in blocks ==>
            match blocks[id]
            case None => id in missingSeen
            case Some(size) =>
              && Key(scope, Blocks, id) in store && store[Key(scope, Blocks, id)] == Block(size)
              && 1 <= size <= MaxBlockSize)
    }

    /** A file already examined is sound, unless something is missing. */
    ghost predicate FilesExamined()
      reads this
    {
      missingSeen == {} ==> forall id :: id in files ==> Sound(store, Key(scope, Files, id))
    }

    ghost predicate Valid()
      reads this
    {
      Reporting() && Caching() && FilesExamined() && EntriesExamined(directories, files, {})
    }

    method AddMissing(id: Id)
      requires Reporting() && Absent(store, scope, id)
      modifies this`missingIds, this`missingSeen, this`truncated
      ensures Reporting() && missingSeen == old(missingSeen) + {id}
      ensures old(missingIds) <= missingIds
    {
      if id in missingSeen {
        return;
      }
      missingSeen := missingSeen + {id};
      if |missingIds| < MaxMissingObjects {
        missingIds := missingIds + [id];
      } else {
        truncated := true;
      }
    }

    method PlanObject(kind: Kind, id: Id) returns (ok: bool)
      requires Reporting()
      modifies this`planned
      ensures Reporting()
      ensures ok <==> (kind, id) in old(planned) || |old(planned)| < limits.validatedObjects
      ensures planned == if ok then old(planned) + {(kind, id)} else old(planned)
    {
      if (kind, id) in planned {
        return true;
      }
      if |planned| == limits.validatedObjects {
        return false;
      }
      planned := planned + {(kind, id)};
      return true;
    }

    method AddContext() returns (ok: bool)
      requires Reporting()
      modifies this`contexts
      ensures Reporting()
      ensures ok <==> old(contexts) < limits.traversalContexts
      ensures contexts == if ok then old(contexts) + 1 else old(contexts)
    {
      if contexts == limits.traversalContexts {
        return false;
      }
      contexts := contexts + 1;
      return true;
    }

    method LoadCommit(id: Id) returns (r: Result<Option<Commit>, HeadError>)
      requires Valid()
      modifies this`missingIds, this`missingSeen, this`truncated, this`planned, this`commits
      ensures r.Ok? ==> Valid() && old(missingSeen) <= missingSeen
      ensures r.Ok? && r.value.None? ==> missingSeen != {}
      ensures r.Ok? && r.value.Some? ==>
                Readable(store, Key(scope, Commits, id)) && r.value.value == CommitAt(store, scope, id)
      ensures r == Err(CorruptObject) ==> Key(scope, Commits, id) in store && !Readable(store, Key(scope, Commits, id))
      ensures r.Err? ==> r.error in {PayloadTooLarge, CorruptObject}
      ensures old(missingSeen) == {} && Readable(store, Key(scope, Commits, id)) ==>
                if r.Ok? then r.value.Some? && missingSeen == {} else r.error.PayloadTooLarge? && AtLimit()
    {
      if id in commits {
        return Ok(commits[id]);
      }
      var ok := PlanObject(Commits, id);
      if !ok {
        return Err(PayloadTooLarge);
      }
      var key := Key(scope, Commits, id);
      if key !in store {
        AddMissing(id);
        commits := commits[id := None];
        return Ok(None);
      }
      if !HasKind(store[key], Commits) {
        return Err(CorruptObject);
      }
      commits := commits[id := Some(store[key].commit)];
      return Ok(Some(store[key].commit));
    }

    method LoadDirectory(id: Id, ghost queued: set<Id>) returns (r: Result<Option<seq<Entry>>, HeadError>)
      requires Reporting() && Caching() && FilesExamined() && EntriesExamined(directories, files, queued + {id})
      modifies this`missingIds, this`missingSeen, this`truncated, this`directories
      ensures r.Ok? ==> Reporting() && Caching() && FilesExamined() && old(missingSeen) <= missingSeen
      ensures r.Ok? ==> id in directories && directories[id] == r.value && old(directories).Keys <= directories.Keys
      ensures r.Ok? ==> OthersExamined(directories, files, queued, id)
      ensures r.Ok? && id in old(directories) ==> directories == old(directories)
      ensures r.Err? ==> r == Err(CorruptObject)
      ensures old(missingSeen) == {} && Readable(store, Key(scope, Directories, id)) ==> r.Ok? && r.value.Some? && missingSeen == {}
    {
      if id in directories {
        return Ok(directories[id]);
      }
      var key := Key(scope, Directories, id);
      if key !in store {
        AddMissing(id);
        directories := directories[id := None];
        return Ok(None);
      }
      if !HasKind(store[key], Directories) {
        return Err(CorruptObject);
      }
      directories := directories[id := Some(store[key].entries)];
      return Ok(Some(store[key].entries));
    }

    method LoadBlock(id: Id) returns (r: Result<Option<nat>, HeadError>)
      requires Reporting() && Caching()
      modifies this`missingIds, this`missingSeen, this`truncated, this`planned, this`blocks
      ensures r.Ok? ==> Reporting() && Caching() && old(missingSeen) <= missingSeen
      ensures r.Ok? && r.value.None? ==> missingSeen != {}
      ensures r.Ok? && r.value.Some? ==> 1 <= r.value.value <= MaxBlockSize &&
                                         Key(scope, Blocks, id) in store && store[Key(scope, Blocks, id)] == Block(r.value.value)
      ensures old(missingSeen) == {} && BlockFits(id, true) ==>
                if r.Ok? then r.value.Some? && missingSeen == {} else r.error.PayloadTooLarge? && AtLimit()
    {
      if id in blocks {
        return Ok(blocks[id]);
      }
      var ok := PlanObject(Blocks, id);
      if !ok {
        return Err(PayloadTooLarge);
      }
      var key := Key(scope, Blocks, id);
      if key !in store {
        AddMissing(id);
        blocks := blocks[id := None];
        return Ok(None);
      }
      if !HasKind(store[key], Blocks) || store[key].size < 1 || store[key].size > MaxBlockSize {
        return Err(CorruptObject);
      }
      blocks := blocks[id := Some(store[key].size)];
      return Ok(Some(store[key].size));
    }

    method ValidateFile(id: Id) returns (r: Result<(), HeadError>)
      requires Reporting() && Caching() && FilesExamined()
      modifies this`missingIds, this`missingSeen, this`truncated, this`planned, this`files, this`blocks
      ensures r.Ok? ==> Reporting() && Caching() && FilesExamined()
      ensures r.Ok? ==> files == old(files) + {id} && old(missingSeen) <= missingSeen
      ensures r.Err? ==> r.error in {PayloadTooLarge, CorruptObject}
      ensures old(missingSeen) == {} && Sound(store, Key(scope, Files, id)) ==> if r.Ok? then missingSeen == {} else r.error.PayloadTooLarge? && AtLimit()
    {
      if id in files {
        return Ok(());
      }
      var ok := PlanObject(Files, id);
      if !ok {
        return Err(PayloadTooLarge);
      }
      files := files + {id};
      var key := Key(scope, Files, id);
      if key !in store {
        AddMissing(id);
        return Ok(());
      }
      if !HasKind(store[key], Files) {
        return Err(CorruptObject);
      }
      var done := ValidateBlocks(store[key]);
      return done;
    }

    /** The blocks of one file, in order: stored, sized as the format demands, adding up to the file's size. */
    method ValidateBlocks(file: Object) returns (r: Result<(), HeadError>)
      requires file.File?
      requires Reporting() && Caching()
      modifies this`missingIds, this`missingSeen, this`truncated, this`planned, this`blocks
      ensures r.Ok? ==> Reporting() && Caching() && old(missingSeen) <= missingSeen
      ensures r.Ok? && missingSeen == {} ==> FileSound(store, scope, file)
      ensures r.Err? ==> r.error in {PayloadTooLarge, CorruptObject}
      ensures old(missingSeen) == {} && FileSound(store, scope, file) ==> if r.Ok? then missingSeen == {} else r.error.PayloadTooLarge? && AtLimit()
    {
      var total, complete, index := 0, true, 0;
      while index < |file.blocks|
        invariant 0 <= index <= |file.blocks|
        invariant Reporting() && Caching() && old(missingSeen) <= missingSeen
        invariant !complete ==> missingSeen != {}
        invariant old(missingSeen) == {} && FileSound(store, scope, file) ==> missingSeen == {}
        invariant complete ==> total == BlockTotal(store, scope, file.blocks[..index])
        invariant complete ==> forall i :: 0 <= i < index ==> BlockFits(file.blocks[i], i == |file.blocks| - 1)
      {
        assert FileSound(store, scope, file) ==> BlockFits(file.blocks[index], index == |file.blocks| - 1);
        var loaded := LoadBlock(file.blocks[index]);
        if loaded.Err? {
          return Err(if loaded.error == PayloadTooLarge then PayloadTooLarge else CorruptObject);
        }
        if loaded.value.None? {
          complete := false;
        } else {
          if index < |file.blocks| - 1 && loaded.value.value != MaxBlockSize {
            return Err(CorruptObject);
          }
          assert file.blocks[..index + 1][..index] == file.blocks[..index];
          total := total + loaded.value.value;
        }
        index := index + 1;
      }
      assert file.blocks[..|file.blocks|] == file.blocks;
      if complete && total != file.length {
        return Err(CorruptObject);
      }
      return Ok(());
    }

    ghost predicate BlockFits(id: Id, last: bool) {
      var key := Key(scope, Blocks, id);
      Readable(store, key) && 1 <= store[key].size <= MaxBlockSize && (!last ==> store[key].size == MaxBlockSize)
    }

    /** Queues the subdirectories of one directory and validates its files. */
    method ValidateEntries(work: DirectoryWork, entries: seq<Entry>, waiting: seq<DirectoryWork>, ghost root: Id, ghost trail: seq<Entry>)
      returns (r: Result<seq<DirectoryWork>, HeadError>)
      requires WorkAt(store, scope, root, work, trail) && AllLocated(store, scope, root, waiting)
      requires Reporting() && Caching() && FilesExamined()
      requires work.id in directories && directories[work.id] == Some(entries)
      requires OthersExamined(directories, files, QueuedIds(waiting), work.id)
      modifies this`missingIds, this`missingSeen, this`truncated, this`planned, this`files, this`blocks, this`contexts
      ensures r.Ok? ==> Reporting() && Caching() && FilesExamined() && old(missingSeen) <= missingSeen
      ensures r.Ok? ==> waiting <= r.value && EntriesExamined(directories, files, QueuedIds(r.value))
      ensures r.Ok? ==> contexts - old(contexts) == |r.value| - |waiting|
      ensures r.Ok? ==> AllLocated(store, scope, root, r.value)
      ensures r.Ok? ==> forall e :: e in entries ==> EntryMet(work, limits.snapshotDepth, e, r.value)
      ensures r == Err(InvalidSnapshot) ==> HasMisfit(store, scope, limits.snapshotDepth, root)
      ensures old(missingSeen) == {} && FilesSound(store, scope, entries) ==>
                if r.Ok? then missingSeen == {} else r.error.InvalidSnapshot? || (r.error.PayloadTooLarge? && AtLimit())
    {
      var queue := waiting;
      var i := 0;
      while i < |entries|
        invariant 0 <= i <= |entries|
        invariant Reporting() && Caching() && FilesExamined() && old(missingSeen) <= missingSeen
        invariant waiting <= queue && contexts - old(contexts) == |queue| - |waiting|
        invariant OthersExamined(directories, files, QueuedIds(queue), work.id)
        invariant Examined(entries[..i], directories.Keys, files, QueuedIds(queue))
        invariant forall e :: e in entries[..i] ==> EntryMet(work, limits.snapshotDepth, e, queue)
        invariant AllLocated(store, scope, root, queue)
        invariant old(missingSeen) == {} && FilesSound(store, scope, entries) ==> missingSeen == {}
      {
        assert entries[..i + 1] == entries[..i] + [entries[i]];
        var done := ValidateEntry(work, entries[i], queue, entries, entries[..i], root, trail);
        if done.Err? {
          return done;
        }
        MetStays(work, limits.snapshotDepth, entries[..i], queue, done.value);
        queue := done.value;
        i := i + 1;
      }
      assert entries[..|entries|] == entries;
      return Ok(queue);
    }

    /** One entry: a subdirectory is queued, a file is validated. */
    method ValidateEntry(work: DirectoryWork, entry: Entry, queue: seq<DirectoryWork>, ghost entries: seq<Entry>, ghost examined: seq<Entry>,
                         ghost root: Id, ghost trail: seq<Entry>)
      returns (r: Result<seq<DirectoryWork>, HeadError>)
      requires WorkAt(store, scope, root, work, trail) && AllLocated(store, scope, root, queue) && entry in entries
      requires Reporting() && Caching() && FilesExamined()
      requires work.id in directories && directories[work.id] == Some(entries)
      requires OthersExamined(directories, files, QueuedIds(queue), work.id) && Examined(examined, directories.Keys, files, QueuedIds(queue))
      modifies this`missingIds, this`missingSeen, this`truncated, this`planned, this`files, this`blocks, this`contexts
      ensures r.Ok? ==> Reporting() && Caching() && FilesExamined() && old(missingSeen) <= missingSeen
      ensures r.Ok? ==> queue <= r.value && contexts - old(contexts) == |r.value| - |queue| && AllLocated(store, scope, root, r.value)
      ensures r.Ok? ==> OthersExamined(directories, files, QueuedIds(r.value), work.id)
      ensures r.Ok? ==> Examined(examined + [entry], directories.Keys, files, QueuedIds(r.value))
      ensures r.Ok? ==> EntryMet(work, limits.snapshotDepth, entry, r.value)
      ensures r == Err(InvalidSnapshot) ==> HasMisfit(store, scope, limits.snapshotDepth, root)
      ensures old(missingSeen) == {} && FilesSound(store, scope, entries) ==>
                if r.Ok? then missingSeen == {} else r.error.InvalidSnapshot? || (r.error.PayloadTooLarge? && AtLimit())
    {
      WorkGrows(store, scope, root, work, trail, entries, entry);
      var pathBytes := |entry.name| + if work.pathBytes != 0 then work.pathBytes + 1 else 0;
      if pathBytes > MaxSnapshotPathBytes || work.depth == limits.snapshotDepth {
        WorkMisfits(store, scope, limits.snapshotDepth, root, work, trail, entry);
        return Err(InvalidSnapshot);
      }
      match entry.entryType {
        case DirectoryEntry =>
          if entry.id in work.ancestors {
            WorkMisfits(store, scope, limits.snapshotDepth, root, work, trail, entry);
            return Err(InvalidSnapshot);
          }
          var counted := AddContext();
          if !counted {
            return Err(PayloadTooLarge);
          }
          var ok := PlanObject(Directories, entry.id);
          if !ok {
            return Err(PayloadTooLarge);
          }
          QueueGrows(queue, DirectoryWork(entry.id, pathBytes, work.depth + 1, work.ancestors + [entry.id]));
          return Ok(queue + [DirectoryWork(entry.id, pathBytes, work.depth + 1, work.ancestors + [entry.id])]);
        case FileEntry =>
          var done := ValidateFile(entry.id);
          return if done.Err? then Err(done.error) else Ok(queue);
      }
    }

    /** Takes the first queued directory: loads it and queues what it names. */
    method ValidateNext(queue: seq<DirectoryWork>, ghost root: Id) returns (r: Result<seq<DirectoryWork>, HeadError>)
      requires queue != [] && AllLocated(store, scope, root, queue)
      requires Reporting() && Caching() && FilesExamined()
      requires EntriesExamined(directories, files, QueuedIds(queue))
      modifies this`missingIds, this`missingSeen, this`truncated, this`planned, this`directories, this`files,
               this`blocks, this`contexts
      ensures r.Ok? ==> Reporting() && Caching() && FilesExamined() && old(missingSeen) <= missingSeen
      ensures r.Ok? ==> EntriesExamined(directories, files, QueuedIds(r.value))
      ensures r.Ok? ==> old(directories.Keys) + {queue[0].id} <= directories.Keys && queue[1..] <= r.value
      ensures r.Ok? ==> contexts - old(contexts) == |r.value| - (|queue| - 1)
      ensures r.Ok? ==> AllLocated(store, scope, root, r.value)
      ensures r.Ok? && missingSeen == {} ==> Entered(store, scope, limits.snapshotDepth, queue[0], r.value)
      ensures r == Err(InvalidSnapshot) ==> HasMisfit(store, scope, limits.snapshotDepth, root)
      ensures old(missingSeen) == {} && SoundClosure(store, {Key(scope, Directories, root)}) ==>
                if r.Ok? then missingSeen == {} else r.error.InvalidSnapshot? || (r.error.PayloadTooLarge? && AtLimit())
    {
      var work := queue[0];
      assert Located(store, scope, root, work) && AllLocated(store, scope, root, queue[1..]);
      ghost var trail :| WorkAt(store, scope, root, work, trail);
      if SoundClosure(store, {Key(scope, Directories, root)}) {
        WorkSound(store, scope, root, work);
      }
      QueueShrinks(queue);
      var loaded := LoadDirectory(work.id, QueuedIds(queue[1..]));
      if loaded.Err? {
        return Err(loaded.error);
      }
      if loaded.value.None? {
        return Ok(queue[1..]);
      }
      r := ValidateEntries(work, loaded.value.value, queue[1..], root, trail);
    }

    /** A whole snapshot, breadth first. When nothing is missing, everything under the root is stored and sound. */
    method ValidateRoot(root: Id) returns (r: Result<(), HeadError>)
      requires Valid()
      modifies this`missingIds, this`missingSeen, this`truncated, this`planned, this`directories, this`files,
               this`blocks, this`contexts
      ensures r.Ok? ==> Valid() && old(missingSeen) <= missingSeen
      ensures r.Ok? && missingSeen == {} ==> SoundClosure(store, {Key(scope, Directories, root)})
      ensures r == Err(InvalidSnapshot) ==> HasMisfit(store, scope, limits.snapshotDepth, root)
      ensures r.Ok? && missingSeen == {} ==> !HasMisfit(store, scope, limits.snapshotDepth, root)
      ensures old(missingSeen) == {} && SoundClosure(store, {Key(scope, Directories, root)}) ==>
                if r.Ok? then missingSeen == {} else r.error.InvalidSnapshot? || (r.error.PayloadTooLarge? && AtLimit())
    {
      var ok := PlanObject(Directories, root);
      if !ok {
        return Err(PayloadTooLarge);
      }
      var counted := AddContext();
      if !counted {
        return Err(PayloadTooLarge);
      }
      var done := Traverse(root);
      if done.Err? {
        return done;
      }
      if missingSeen == {} {
        SnapshotSound(root);
      }
      return Ok(());
    }

    /** The loop over the queue of directories. */
    method Traverse(root: Id) returns (r: Result<(), HeadError>)
      requires Valid()
      modifies this`missingIds, this`missingSeen, this`truncated, this`planned, this`directories, this`files,
               this`blocks, this`contexts
      ensures r.Ok? ==> Valid() && old(missingSeen) <= missingSeen && root in directories
      ensures r == Err(InvalidSnapshot) ==> HasMisfit(store, scope, limits.snapshotDepth, root)
      ensures r.Ok? && missingSeen == {} ==> !HasMisfit(store, scope, limits.snapshotDepth, root)
      ensures old(missingSeen) == {} && SoundClosure(store, {Key(scope, Directories, root)}) ==>
                if r.Ok? then missingSeen == {} else r.error.InvalidSnapshot? || (r.error.PayloadTooLarge? && AtLimit())
    {
      var queue := [DirectoryWork(root, 0, 1, [root])];
      assert WorkAt(store, scope, root, queue[0], []);
      StartAwaits(store, scope, limits.snapshotDepth, root);
      while queue != []
        invariant Reporting() && Caching() && FilesExamined() && old(missingSeen) <= missingSeen
        invariant EntriesExamined(directories, files, QueuedIds(queue))
        invariant root in directories || (queue != [] && queue[0].id == root)
        invariant AllLocated(store, scope, root, queue)
        invariant missingSeen == {} ==> Awaited(store, scope, limits.snapshotDepth, root, queue)
        invariant old(missingSeen) == {} && SoundClosure(store, {Key(scope, Directories, root)}) ==> missingSeen == {}
        decreases limits.traversalContexts - contexts, |queue|
      {
        var next := ValidateNext(queue, root);
        if next.Err? {
          return Err(next.error);
        }
        if missingSeen == {} {
          NextAwaits(store, scope, limits.snapshotDepth, root, queue, next.value);
        }
        queue := next.value;
      }
      if missingSeen == {} {
        NoneAwaited(store, scope, limits.snapshotDepth, root);
      }
      return Ok(());
    }

    /** With nothing queued and nothing missing, the examined objects are closed under reference. */
    lemma SnapshotSound(root: Id)
      requires Valid() && missingSeen == {} && root in directories
      ensures SoundClosure(store, {Key(scope, Directories, root)})
    {
      var dirs := set d | d in directories :: Key(scope, Directories, d);
      var fileKeys := set f | f in files :: Key(scope, Files, f);
      var blockKeys := set f, k | f in files && k in Refs(store, Key(scope, Files, f)) :: k;
      var all := dirs + fileKeys + blockKeys;
      forall k, c | k in all && c in Refs(store, k)
        ensures c in all
      {
        if k in dirs {
          assert directories[k.id].Some?;
          assert Examined(directories[k.id].value, directories.Keys, files, {});
          var e :| e in directories[k.id].value &&
                   c == Key(scope, if e.entryType == FileEntry then Files else Directories, e.id);
        }
      }
      assert ClosedUpTo(store, all, {});
      forall k | Reachable(store, {Key(scope, Directories, root)}, k)
        ensures Sound(store, k)
      {
        ClosedHoldsReachable(store, {Key(scope, Directories, root)}, all, k);
      }
    }

    /**
      The whole validation. A result without error and with nothing reported missing means the
      candidate's snapshot, and every snapshot of its merge sources, is completely stored and sound,
      and the rows returned are exactly the candidate's and its sources'. The other way round, a sound
      candidate with these sources is accepted, unless some path of a snapshot is a misfit or a limit is reached.
     */
    method ValidateCandidate(commitId: Id, ghost sources: seq<Id>) returns (r: Result<seq<Role>, HeadError>)
      requires Valid()
      modifies this
      ensures r.Ok? ==> Valid()
      ensures r.Ok? && missingIds == [] ==> CandidateSound(store, scope, library, commitId, r.value)
      ensures r.Ok? && missingIds == [] ==> forall row :: row in r.value ==> !CommitMisfit(store, scope, limits.snapshotDepth, row.commitId)
      ensures old(missingIds) == [] && CandidateSound(store, scope, library, commitId, RolesFor(commitId, sources)) ==>
                if r.Ok? then r.value == RolesFor(commitId, sources) && missingIds == []
                else if r.error.InvalidSnapshot? then exists id :: id in [commitId] + sources && CommitMisfit(store, scope, limits.snapshotDepth, id)
                else r.error.PayloadTooLarge? && (AtLimit() || |sources| > limits.commitDepth || |sources| > limits.introducedCommits)
    {
      var loaded := LoadCommit(commitId);
      if loaded.Err? {
        return Err(loaded.error);
      }
      if loaded.value.None? {
        return Ok([]);
      }
      var commit := loaded.value.value;
      if commit.author != scope.owner || !ValidCommitParents(commit.parents, library.head) {
        return Err(InvalidSnapshot);
      }
      if library.head.Some? && !IsMainline(library, library.head.value) {
        return Err(InvalidSnapshot);
      }
      var rootDone := ValidateRoot(commit.root);
      if rootDone.Err? {
        assert commitId in [commitId] + sources;
        assert rootDone.error.InvalidSnapshot? ==> CommitMisfit(store, scope, limits.snapshotDepth, commitId);
        return Err(rootDone.error);
      }
      if |commit.parents| < 2 {
        return Ok([Role(commitId, Mainline, commitId)]);
      }
      if CandidateSound(store, scope, library, commitId, RolesFor(commitId, sources)) {
        SourcesAreChain(store, scope, library, commitId, sources);
      }
      r := ValidateSources(commitId, commit.parents[1], sources);
    }

    /** The loop down the second-parent chain. */
    method ValidateSources(commitId: Id, start: Id, ghost sources: seq<Id>) returns (r: Result<seq<Role>, HeadError>)
      requires Valid()
      modifies this
      ensures r.Ok? ==> Valid() && old(missingSeen) <= missingSeen
      ensures r.Ok? && missingSeen == {} ==>
                exists chain :: IsSourceChain(store, scope, library, start, chain) && r.value == RolesFor(commitId, chain)
                                && AllFit(store, scope, limits.snapshotDepth, chain)
      ensures old(missingSeen) == {} && IsSourceChain(store, scope, library, start, sources) ==>
                if r.Ok? then r.value == RolesFor(commitId, sources) && missingSeen == {}
                else if r.error.InvalidSnapshot? then exists id :: id in sources && CommitMisfit(store, scope, limits.snapshotDepth, id)
                else r.error.PayloadTooLarge? && (AtLimit() || |sources| > limits.commitDepth || |sources| > limits.introducedCommits)
    {
      var roles := [Role(commitId, Mainline, commitId)];
      ghost var chain: seq<Id> := [];
      var seen: set<Id> := {};
      var current := start;
      var depth := 1;
      while true
        invariant Valid() && old(missingSeen) <= missingSeen
        invariant depth == |chain| + 1 && roles == RolesFor(commitId, chain)
        invariant chain == [] ==> current == start
        invariant ChainSeen(chain, seen)
        invariant missingSeen == {} ==> LinksTo(store, scope, library, start, chain, current)
        invariant missingSeen == {} ==> AllFit(store, scope, limits.snapshotDepth, chain)
        invariant old(missingSeen) == {} && IsSourceChain(store, scope, library, start, sources) ==>
                    missingSeen == {} && |chain| < |sources| && chain == sources[..|chain|] && current == sources[|chain|]
        decreases limits.commitDepth + 1 - depth
      {
        if depth > limits.commitDepth {
          return Err(PayloadTooLarge);
        }
        if current in seen {
          return Err(InvalidSnapshot);
        }
        if IsSourceChain(store, scope, library, start, sources) && old(missingSeen) == {} {
          assert SourceLink(store, scope, library, sources, |chain|);
          assert sources[..|chain| + 1] == chain + [current];
        }
        ChainSeesMore(chain, seen, current);
        seen := seen + {current};
        var examined := ExamineSource(current, |roles| - 1);
        if examined.Err? {
          return Err(examined.error);
        }
        if examined.value.None? {
          return Ok(roles);
        }
        var parents := examined.value.value;
        ghost var shorter := chain;
        if missingSeen == {} {
          FitMore(store, scope, limits.snapshotDepth, chain, current);
        }
        roles := roles + [Role(current, MergeSource, commitId)];
        chain := chain + [current];
        assert roles == RolesFor(commitId, chain);
        if |parents| == 1 {
          if missingSeen == {} {
            LinkEnds(store, scope, library, start, shorter, current);
          }
          return Ok(roles);
        }
        if missingSeen == {} {
          LinkExtends(store, scope, library, start, shorter, current, parents[1]);
        }
        current := parents[1];
        depth := depth + 1;
      }
    }

    /** One commit of the second-parent chain: its parents when it is a sound merge source, nothing when it is missing. */
    method ExamineSource(current: Id, introduced: nat) returns (r: Result<Option<seq<Id>>, HeadError>)
      requires Valid()
      modifies this
      ensures r.Ok? ==> Valid() && old(missingSeen) <= missingSeen
      ensures r.Ok? && r.value.None? ==> missingSeen != {}
      ensures r.Ok? && r.value.Some? ==> 1 <= |r.value.value| <= 2
      ensures r.Ok? && r.value.Some? && missingSeen == {} ==>
                if |r.value.value| == 1 then SourceLink(store, scope, library, [current], 0)
                else SourceLink(store, scope, library, [current, r.value.value[1]], 0)
      ensures r.Ok? && r.value.Some? && missingSeen == {} ==> !CommitMisfit(store, scope, limits.snapshotDepth, current)
      ensures old(missingSeen) == {} && SoundSource(store, scope, library, current) ==>
                if r.Ok? then r.value == Some(CommitAt(store, scope, current).parents) && missingSeen == {}
                else if r.error.InvalidSnapshot? then CommitMisfit(store, scope, limits.snapshotDepth, current)
                else r.error.PayloadTooLarge? && (AtLimit() || introduced == limits.introducedCommits)
    {
      var counted := AddContext();
      if !counted {
        return Err(PayloadTooLarge);
      }
      if current in library.published {
        return Err(InvalidSnapshot);
      }
      var loaded := LoadCommit(current);
      if loaded.Err? {
        return Err(loaded.error);
      }
      if loaded.value.None? {
        return Ok(None);
      }
      var value := loaded.value.value;
      if value.author != scope.owner || |value.parents| == 0 || |value.parents| > 2 {
        return Err(InvalidSnapshot);
      }
      if introduced == limits.introducedCommits {
        return Err(PayloadTooLarge);
      }
      if !(value.parents[0] in library.published && value.parents[0] in library.roles) {
        if value.parents[0] !in library.published {
          var parent := LoadCommit(value.parents[0]);
          if parent.Err? {
            return Err(parent.error);
          }
          if parent.value.None? {
            return Ok(None);
          }
        }
        return Err(InvalidSnapshot);
      }
      if !IsMainline(library, value.parents[0]) {
        return Err(InvalidSnapshot);
      }
      var rootDone := ValidateRoot(value.root);
      if rootDone.Err? {
        return Err(rootDone.error);
      }
      return Ok(Some(value.parents));
    }
  }

  lemma RolesTell(commitId: Id, a: seq<Id>, b: seq<Id>)
    requires RolesFor(commitId, a) == RolesFor(commitId, b)
    ensures a == b
  {
    assert |RolesFor(commitId, a)| == |a| + 1 && |RolesFor(commitId, b)| == |b| + 1;
    forall i | 0 <= i < |a|
      ensures a[i] == b[i]
    {
      assert RolesFor(commitId, a)[i + 1] == Role(a[i], MergeSource, commitId) && RolesFor(commitId, b)[i + 1] == Role(b[i], MergeSource, commitId);
    }
  }

  lemma SourcesAreChain(store: Store, scope: Scope, library: Library, commitId: Id, sources: seq<Id>)
    requires CandidateSound(store, scope, library, commitId, RolesFor(commitId, sources))
    ensures var parents := CommitAt(store, scope, commitId).parents;
            if |parents| == 2 then IsSourceChain(store, scope, library, parents[1], sources) else sources == []
  {
    var parents := CommitAt(store, scope, commitId).parents;
    if |parents| == 2 {
      var chain :| IsSourceChain(store, scope, library, parents[1], chain) && RolesFor(commitId, sources) == RolesFor(commitId, chain);
      RolesTell(commitId, sources, chain);
    } else {
      RolesTell(commitId, sources, []);
    }
  }

  /** The commits of the chain so far, each once. */
  ghost predicate ChainSeen(chain: seq<Id>, seen: set<Id>) {
    && (forall i, j :: 0 <= i < j < |chain| ==> chain[i] != chain[j])
    && (forall c :: c in seen <==> c in chain)
  }

  lemma ChainSeesMore(chain: seq<Id>, seen: set<Id>, current: Id)
    requires ChainSeen(chain, seen) && current !in seen
    ensures ChainSeen(chain + [current], seen + {current})
  {
    forall i | 0 <= i < |chain|
      ensures chain[i] != current
    {
      assert chain[i] in chain;
    }
  }

  ghost function QueuedIds(queue: seq<DirectoryWork>): set<Id> {
    set w | w in queue :: w.id
  }

  lemma QueueGrows(queue: seq<DirectoryWork>, work: DirectoryWork)
    ensures QueuedIds(queue + [work]) == QueuedIds(queue) + {work.id}
  {
  }

  lemma QueueShrinks(queue: seq<DirectoryWork>)
    requires queue != []
    ensures QueuedIds(queue) == QueuedIds(queue[1..]) + {queue[0].id}
  {
    assert queue == [queue[0]] + queue[1..];
  }

  lemma LinkExtends(store: Store, scope: Scope, library: Library, start: Id, chain: seq<Id>, current: Id, next: Id)
    requires LinksTo(store, scope, library, start, chain, current)
    requires SourceLink(store, scope, library, [current, next], 0)
    ensures LinksTo(store, scope, library, start, chain + [current], next)
  {
    var longer := chain + [current] + [next];
    forall i | 0 <= i < |chain| + 1
      ensures SourceLink(store, scope, library, longer, i)
    {
      if i < |chain| {
        assert SourceLink(store, scope, library, chain + [current], i);
        assert longer[i] == (chain + [current])[i] && longer[i + 1] == (chain + [current])[i + 1];
      }
    }
  }

  lemma LinkEnds(store: Store, scope: Scope, library: Library, start: Id, chain: seq<Id>, current: Id)
    requires LinksTo(store, scope, library, start, chain, current)
    requires SourceLink(store, scope, library, [current], 0)
    requires forall i, j :: 0 <= i < j < |chain| + 1 ==> (chain + [current])[i] != (chain + [current])[j]
    ensures IsSourceChain(store, scope, library, start, chain + [current])
  {
    var whole := chain + [current];
    forall i | 0 <= i < |whole|
      ensures SourceLink(store, scope, library, whole, i)
    {
      if i < |chain| {
        assert SourceLink(store, scope, library, chain + [current], i);
      }
    }
  }

  /** The prefix of a source chain read so far, whose last commit names `next` as its second parent. */
  ghost predicate LinksTo(store: Store, scope: Scope, library: Library, start: Id, chain: seq<Id>, next: Id) {
    && (chain != [] ==> chain[0] == start)
    && (chain == [] ==> next == start)
    && forall i :: 0 <= i < |chain| ==> SourceLink(store, scope, library, chain + [next], i)
  }
}
