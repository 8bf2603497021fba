/**
  Publication over whole runs of the server: uploads, Head updates (validated, then committed by
  compare-and-set), and exclusive garbage collections.

  `Consistent` is the invariant: the Head's first-parent chain is the mainline, every merge source
  hangs off exactly one mainline commit, and everything reachable from published commits is stored.
 */
module Publication {
  import opened Wrappers
  import opened ObjectGraph
  import opened HeadValidation

  datatype UpdateError = HeadConflict | InvalidRole | DuplicateRole | CandidateRole | RoleConflict | CandidateMissing

  // ---- the transaction that moves Head ----

  /** Why a row is refused, if it is. `seen` holds the commits of the rows before it. */
  function RowError(roles: map<Id, Role>, commitId: Id, seen: set<Id>, row: Role): Option<UpdateError> {
    if row.commitId == "" || row.mainlineId == "" then Some(InvalidRole)
    else if row.commitId in seen then Some(DuplicateRole)
    else if row.commitId == commitId && (row.kind != Mainline || row.mainlineId != commitId) then Some(CandidateRole)
    else if row.commitId != commitId && (row.kind != MergeSource || row.mainlineId != commitId) then Some(CandidateRole)
    else if row.commitId in roles && roles[row.commitId] != row then Some(RoleConflict)
    else None
  }

  /** No check refuses the row when the rows before it are in place. */
  ghost predicate RowReads(roles: map<Id, Role>, commitId: Id, rows: seq<Role>, j: nat) {
    j < |rows| && RowError(roles, commitId, CommitsOf(rows[..j]), rows[j]) == None
  }

  /** The rows are the candidate's own and those of distinct merge sources, none contradicting a stored row. */
  ghost predicate RowsAgree(roles: map<Id, Role>, commitId: Id, rows: seq<Role>) {
    && (forall i {:trigger RowReads(roles, commitId, rows, i)} :: 0 <= i < |rows| ==> RowReads(roles, commitId, rows, i))
    && commitId in CommitsOf(rows)
  }

  /**
    The rows of an update: complete, one for each commit, the candidate's own saying that it is
    mainline under itself, all others that they are merge sources under it, and none against a stored one.
   */
  lemma RowsAgreeMeans(roles: map<Id, Role>, commitId: Id, rows: seq<Role>)
    ensures RowsAgree(roles, commitId, rows) <==>
              && (exists r :: r in rows && r.commitId == commitId)
              && (forall i, j :: 0 <= i < j < |rows| ==> rows[i].commitId != rows[j].commitId)
              && (forall r :: r in rows ==>
                    && r.commitId != "" && r.mainlineId == commitId && commitId != ""
                    && r.kind == (if r.commitId == commitId then Mainline else MergeSource)
                    && (r.commitId in roles ==> roles[r.commitId] == r))
  {
    if RowsAgree(roles, commitId, rows) {
      forall i, j | 0 <= i < j < |rows|
        ensures rows[i].commitId != rows[j].commitId
      {
        assert RowReads(roles, commitId, rows, j) && rows[..j][i] == rows[i];
      }
      forall r | r in rows
        ensures RowError(roles, commitId, {}, r) == None
      {
        var i :| 0 <= i < |rows| && rows[i] == r;
        assert RowReads(roles, commitId, rows, i);
      }
    }
    if (forall i, j :: 0 <= i < j < |rows| ==> rows[i].commitId != rows[j].commitId) &&
       (forall r :: r in rows ==> RowError(roles, commitId, {}, r) == None) {
      forall i | 0 <= i < |rows|
        ensures RowReads(roles, commitId, rows, i)
      {
        assert rows[i] in rows;
      }
    }
  }

  ghost function CommitsOf(rows: seq<Role>): set<Id> {
    set r | r in rows :: r.commitId
  }

  /** The stored rows after inserting `rows`, keeping rows already present. */
  ghost predicate Inserted(before: map<Id, Role>, after: map<Id, Role>, rows: seq<Role>) {
    && after.Keys == before.Keys + CommitsOf(rows)
    && (forall id :: id in before ==> after[id] == before[id])
    && (forall r :: r in rows ==> after[r.commitId] == r)
  }

  /** An insert that keeps a row already there. */
  function InsertRow(roles: map<Id, Role>, row: Role): map<Id, Role> {
    if row.commitId in roles then roles else roles[row.commitId := row]
  }

  lemma InsertedGrows(before: map<Id, Role>, roles: map<Id, Role>, rows: seq<Role>, i: nat)
    requires i < |rows| && Inserted(before, roles, rows[..i])
    requires rows[i].commitId !in CommitsOf(rows[..i])
    requires rows[i].commitId in before ==> before[rows[i].commitId] == rows[i]
    ensures Inserted(before, InsertRow(roles, rows[i]), rows[..i + 1])
    ensures CommitsOf(rows[..i + 1]) == CommitsOf(rows[..i]) + {rows[i].commitId}
  {
    assert rows[..i + 1] == rows[..i] + [rows[i]];
  }

  class LibraryTable {
    var library: Library

    constructor (library: Library)
      ensures this.library == library
    {
      this.library := library;
    }

    /**
      Compare-and-set of Head with its roles, in one transaction: it either advances Head by one
      version and inserts every row, or changes nothing.
     */
    method UpdateLibraryHeadWithRoles(expectedHead: Option<Id>, expectedVersion: nat, commitId: Id, rows: seq<Role>)
      returns (r: Result<Library, UpdateError>)
      modifies this
      ensures r.Ok? <==> old(library).head == expectedHead && old(library).version == expectedVersion &&
                         RowsAgree(old(library).roles, commitId, rows)
      ensures r == Err(HeadConflict) <==> !(old(library).head == expectedHead && old(library).version == expectedVersion)
      ensures r.Err? ==> library == old(library)
      ensures r.Ok? ==> r.value == library && Advanced(old(library), library, commitId, rows)
    {
      if library.version != expectedVersion || library.head != expectedHead {
        return Err(HeadConflict);
      }
      var seen: set<Id> := {};
      var published, roles := library.published, library.roles;
      var i := 0;
      while i < |rows|
        invariant 0 <= i <= |rows| && library == old(library)
        invariant RowsRead(library, commitId, rows, i, seen, published, roles)
      {
        var error := RowError(library.roles, commitId, seen, rows[i]);
        if error.Some? {
          RowRefused(library, commitId, rows, i, seen, published, roles);
          return Err(error.value);
        }
        RowRead(library, commitId, rows, i, seen, published, roles);
        seen, published := seen + {rows[i].commitId}, published + {rows[i].commitId};
        roles := InsertRow(roles, rows[i]);
        i := i + 1;
      }
      assert rows[..|rows|] == rows;
      if commitId !in seen {
        return Err(CandidateMissing);
      }
      library := Library(Some(commitId), library.version + 1, published, roles);
      return Ok(library);
    }
  }

  /** The first rows agree and are in place. */
  ghost predicate RowsRead(library: Library, commitId: Id, rows: seq<Role>, i: nat, seen: set<Id>, published: set<Id>, roles: map<Id, Role>) {
    && i <= |rows| && seen == CommitsOf(rows[..i]) && published == library.published + seen
    && Inserted(library.roles, roles, rows[..i])
    && forall j {:trigger RowReads(library.roles, commitId, rows, j)} :: 0 <= j < i ==> RowReads(library.roles, commitId, rows, j)
  }

  lemma RowRefused(library: Library, commitId: Id, rows: seq<Role>, i: nat, seen: set<Id>, published: set<Id>, roles: map<Id, Role>)
    requires RowsRead(library, commitId, rows, i, seen, published, roles) && i < |rows|
    requires RowError(library.roles, commitId, seen, rows[i]) != None
    ensures !RowsAgree(library.roles, commitId, rows) && RowError(library.roles, commitId, seen, rows[i]) != Some(HeadConflict)
  {
    assert !RowReads(library.roles, commitId, rows, i);
  }

  lemma RowRead(library: Library, commitId: Id, rows: seq<Role>, i: nat, seen: set<Id>, published: set<Id>, roles: map<Id, Role>)
    requires RowsRead(library, commitId, rows, i, seen, published, roles) && i < |rows|
    requires RowError(library.roles, commitId, seen, rows[i]) == None
    ensures RowsRead(library, commitId, rows, i + 1, seen + {rows[i].commitId}, published + {rows[i].commitId}, InsertRow(roles, rows[i]))
  {
    InsertedGrows(library.roles, roles, rows, i);
    assert RowReads(library.roles, commitId, rows, i);
  }

  ghost predicate Advanced(before: Library, after: Library, commitId: Id, rows: seq<Role>) {
    && after.head == Some(commitId)
    && after.version == before.version + 1
    && after.published == before.published + CommitsOf(rows)
    && Inserted(before.roles, after.roles, rows)
  }

  // ---- runs ----

  /** A Head update that was validated and not yet committed. */
  datatype Inflight = Inflight(expectedHead: Option<Id>, expectedVersion: nat, commitId: Id, rows: seq<Role>)

  datatype System = System(library: Library, store: Store, inflight: set<Inflight>)

  /** The published commits, as roots of the object graph. */
  function PublishedRoots(scope: Scope, library: Library): set<Key> {
    set id | id in library.published :: Key(scope, Commits, id)
  }

  datatype Step =
    | Upload(key: Key, obj: Object)
    | Admit(update: Inflight)
    | Commit_(update: Inflight)
    | Abandon(update: Inflight)
    | Collect(left: Store)

  /**
    One step of the server. Uploads verify content and never replace an object. A Head update is
    admitted when validation finds the candidate sound in the current state; committing it is the
    transaction above. A collection holds the data directory exclusively, so no update is in
    flight, and it may stop after any deletion.
   */
  ghost predicate Next(scope: Scope, s: System, step: Step, t: System) {
    match step
    case Upload(key, obj) =>
      && HasKind(obj, key.kind)
      && t == s.(store := if key in s.store then s.store else s.store[key := obj])
    case Admit(update) =>
      && update.expectedHead == s.library.head && update.expectedVersion == s.library.version
      && CandidateSound(s.store, scope, s.library, update.commitId, update.rows)
      && t == s.(inflight := s.inflight + {update})
    case Commit_(update) =>
      && update in s.inflight
      && t.store == s.store && t.inflight == s.inflight - {update}
      && (if s.library.head == update.expectedHead && s.library.version == update.expectedVersion &&
             RowsAgree(s.library.roles, update.commitId, update.rows)
          then Advanced(s.library, t.library, update.commitId, update.rows)
          else t.library == s.library)
    case Abandon(update) => t == s.(inflight := s.inflight - {update})
    case Collect(left) =>
      && s.inflight == {}
      && t == s.(store := left)
      && left.Keys <= s.store.Keys
      && (forall k :: k in left ==> left[k] == s.store[k])
      && (forall k :: k in s.store && Reachable(s.store, PublishedRoots(scope, s.library), k) ==> k in left)
  }

  // ---- the invariant ----

  /** `chain` lists commits from `head` along first parents down to the parentless one. */
  ghost predicate IsMainlineChain(store: Store, scope: Scope, library: Library, chain: seq<Id>) {
    && (library.head == if chain == [] then None else Some(chain[0]))
    && (forall i, j :: 0 <= i < j < |chain| ==> chain[i] != chain[j])
    && (forall i :: 0 <= i < |chain| ==> MainlineLink(store, scope, library, chain, i))
  }

  ghost predicate MainlineLink(store: Store, scope: Scope, library: Library, chain: seq<Id>, i: nat)
    requires i < |chain|
  {
    && IsMainline(library, chain[i])
    && Readable(store, Key(scope, Commits, chain[i]))
    && var commit := CommitAt(store, scope, chain[i]);
       && commit.author == scope.owner
       && |commit.parents| <= 2
       && (if i + 1 < |chain| then commit.parents != [] && commit.parents[0] == chain[i + 1] else commit.parents == [])
       && (|commit.parents| == 2 ==> exists sources :: IsMergeOf(store, scope, library, chain[i], sources))
  }

  /**
    `sources` is the second-parent chain of a mainline commit: each has a row naming that commit as
    its mainline, a mainline first parent, and the last has one parent.
   */
  ghost predicate IsMergeOf(store: Store, scope: Scope, library: Library, mainline: Id, sources: seq<Id>) {
    && Readable(store, Key(scope, Commits, mainline))
    && |CommitAt(store, scope, mainline).parents| == 2
    && sources != [] && sources[0] == CommitAt(store, scope, mainline).parents[1]
    && (forall i, j :: 0 <= i < j < |sources| ==> sources[i] != sources[j])
    && (forall i :: 0 <= i < |sources| ==> MergeLink(store, scope, library, mainline, sources, i))
  }

  ghost predicate MergeLink(store: Store, scope: Scope, library: Library, mainline: Id, sources: seq<Id>, i: nat)
    requires i < |sources|
  {
    && sources[i] in library.published && sources[i] in library.roles
    && library.roles[sources[i]] == Role(sources[i], MergeSource, mainline)
    && Readable(store, Key(scope, Commits, sources[i]))
    && var commit := CommitAt(store, scope, sources[i]);
       && commit.author == scope.owner
       && 1 <= |commit.parents| <= 2
       && IsMainline(library, commit.parents[0])
       && (if i + 1 < |sources| then |commit.parents| == 2 && commit.parents[1] == sources[i + 1]
           else |commit.parents| == 1)
  }

  /** Every row belongs to the mainline chain or to the merge of one of its commits. */
  ghost predicate RowsPlaced(store: Store, scope: Scope, library: Library, chain: seq<Id>) {
    && library.published == library.roles.Keys
    && forall id :: id in library.roles ==> RowPlaced(store, scope, library, chain, id)
  }

  ghost predicate RowPlaced(store: Store, scope: Scope, library: Library, chain: seq<Id>, id: Id)
    requires id in library.roles
  {
    match library.roles[id].kind
    case Mainline => library.roles[id] == Role(id, Mainline, id) && id in chain
    case MergeSource =>
      var mainline := library.roles[id].mainlineId;
      && mainline in chain && mainline != id
      && exists sources :: IsMergeOf(store, scope, library, mainline, sources) && id in sources
  }

  /** The history and closure invariant of a library and the store. */
  ghost predicate Consistent(scope: Scope, store: Store, library: Library, chain: seq<Id>) {
    && IsMainlineChain(store, scope, library, chain)
    && |chain| == library.version
    && RowsPlaced(store, scope, library, chain)
    && SoundClosure(store, PublishedRoots(scope, library))
  }

  ghost predicate Invariant(scope: Scope, s: System, chain: seq<Id>) {
    && Consistent(scope, s.store, s.library, chain)
    && forall u :: u in s.inflight ==>
         && u.expectedVersion <= s.library.version
         && (u.expectedVersion == s.library.version ==>
               && u.expectedHead == s.library.head
               && CandidateSound(s.store, scope, s.library, u.commitId, u.rows))
  }

  /** A new library: no Head, nothing published. */
  ghost predicate Initial(s: System) {
    s.library == Library(None, 0, {}, map[]) && s.inflight == {}
  }

  lemma InitialInvariant(scope: Scope, s: System)
    requires Initial(s)
    ensures Invariant(scope, s, [])
  {
    assert PublishedRoots(scope, s.library) == {};
  }

  // ---- what changes of the store keep ----

  /** `other` keeps, unchanged, everything reachable from `roots` in `store`. */
  ghost predicate Keeps(store: Store, other: Store, roots: set<Key>) {
    forall k :: Reachable(store, roots, k) && k in store ==> k in other && other[k] == store[k]
  }

  lemma KeptSound(store: Store, other: Store, roots: set<Key>, key: Key)
    requires Keeps(store, other, roots) && Reachable(store, roots, key) && Sound(store, key)
    ensures Sound(other, key)
  {
    if key.kind == Files {
      var file := store[key];
      forall b | b in file.blocks
        ensures Reachable(store, roots, Key(key.scope, Blocks, b))
      {
        StepReachable(store, roots, key, Key(key.scope, Blocks, b));
      }
      forall i | 0 <= i < |file.blocks|
        ensures Key(key.scope, Blocks, file.blocks[i]) in other
        ensures other[Key(key.scope, Blocks, file.blocks[i])] == store[Key(key.scope, Blocks, file.blocks[i])]
      {
        assert Readable(store, Key(key.scope, Blocks, file.blocks[i]));
      }
      TotalKept(store, other, key.scope, file.blocks);
    }
  }

  lemma TotalKept(store: Store, other: Store, scope: Scope, blocks: seq<Id>)
    requires forall b :: b in blocks ==>
               Key(scope, Blocks, b) in store && Key(scope, Blocks, b) in other &&
               other[Key(scope, Blocks, b)] == store[Key(scope, Blocks, b)]
    ensures BlockTotal(other, scope, blocks) == BlockTotal(store, scope, blocks)
  {
  }

  /** A sound closure survives any change that keeps it. */
  lemma ClosureKept(store: Store, other: Store, roots: set<Key>)
    requires SoundClosure(store, roots) && Keeps(store, other, roots)
    ensures SoundClosure(other, roots)
  {
    forall k | Reachable(other, roots, k)
      ensures Sound(other, k)
    {
      ReachableSame(store, other, roots, k);
      KeptSound(store, other, roots, k);
    }
  }

  lemma PublishedReachable(scope: Scope, store: Store, library: Library, id: Id)
    requires id in library.published
    ensures Reachable(store, PublishedRoots(scope, library), Key(scope, Commits, id))
  {
    RootReachable(store, PublishedRoots(scope, library), Key(scope, Commits, id));
  }

  /** Any change of the store that keeps what published commits reach keeps the invariant. */
  lemma ConsistentKept(scope: Scope, store: Store, other: Store, library: Library, chain: seq<Id>)
    requires Consistent(scope, store, library, chain)
    requires Keeps(store, other, PublishedRoots(scope, library))
    ensures Consistent(scope, other, library, chain)
  {
    ClosureKept(store, other, PublishedRoots(scope, library));
    forall id | id in library.published
      ensures Key(scope, Commits, id) in store ==>
                Key(scope, Commits, id) in other && other[Key(scope, Commits, id)] == store[Key(scope, Commits, id)]
    {
      PublishedReachable(scope, store, library, id);
    }
    forall mainline, sources | mainline in library.published && IsMergeOf(store, scope, library, mainline, sources)
      ensures IsMergeOf(other, scope, library, mainline, sources)
    {
      forall i | 0 <= i < |sources|
        ensures MergeLink(other, scope, library, mainline, sources, i)
      {
        assert MergeLink(store, scope, library, mainline, sources, i);
      }
    }
    forall i | 0 <= i < |chain|
      ensures MainlineLink(other, scope, library, chain, i)
    {
      assert MainlineLink(store, scope, library, chain, i);
    }
    forall id | id in library.roles
      ensures RowPlaced(other, scope, library, chain, id)
    {
      assert RowPlaced(store, scope, library, chain, id);
      if library.roles[id].kind == MergeSource {
        var mainline := library.roles[id].mainlineId;
        var i :| 0 <= i < |chain| && chain[i] == mainline;
        assert MainlineLink(store, scope, library, chain, i);
      }
    }
  }

  /** A store that only gains objects keeps everything it held sound. */
  lemma GrowthKeeps(store: Store, other: Store, roots: set<Key>)
    requires forall k :: k in store ==> k in other && other[k] == store[k]
    ensures Keeps(store, other, roots)
    ensures SoundClosure(store, roots) ==> SoundClosure(other, roots)
  {
    if SoundClosure(store, roots) {
      ClosureKept(store, other, roots);
    }
  }

  lemma CandidateKept(scope: Scope, store: Store, other: Store, library: Library, id: Id, rows: seq<Role>)
    requires forall k :: k in store ==> k in other && other[k] == store[k]
    requires CandidateSound(store, scope, library, id, rows)
    ensures CandidateSound(other, scope, library, id, rows)
  {
    var commit := CommitAt(store, scope, id);
    GrowthKeeps(store, other, {Key(scope, Directories, commit.root)});
    if |commit.parents| == 2 {
      var chain :| IsSourceChain(store, scope, library, commit.parents[1], chain) && rows == RolesFor(id, chain);
      forall i | 0 <= i < |chain|
        ensures SourceLink(other, scope, library, chain, i)
      {
        assert SourceLink(store, scope, library, chain, i);
        GrowthKeeps(store, other, {Key(scope, Directories, CommitAt(store, scope, chain[i]).root)});
      }
      assert IsSourceChain(other, scope, library, commit.parents[1], chain);
    }
  }

  // ---- committing a sound candidate ----

  /** The merge sources of a sound candidate, in chain order. */
  ghost function SourcesOf(store: Store, scope: Scope, library: Library, id: Id, rows: seq<Role>): (sources: seq<Id>)
    requires CandidateSound(store, scope, library, id, rows)
    ensures rows == RolesFor(id, sources)
    ensures var commit := CommitAt(store, scope, id);
            if |commit.parents| == 2 then IsSourceChain(store, scope, library, commit.parents[1], sources) else sources == []
  {
    var commit := CommitAt(store, scope, id);
    if |commit.parents| == 2 then
      var chain :| IsSourceChain(store, scope, library, commit.parents[1], chain) && rows == RolesFor(id, chain);
      chain
    else []
  }

  /** A candidate that validation accepted on top of the current Head is not on the mainline yet. */
  lemma CandidateIsNew(scope: Scope, store: Store, library: Library, chain: seq<Id>, id: Id, rows: seq<Role>)
    requires Consistent(scope, store, library, chain)
    requires CandidateSound(store, scope, library, id, rows)
    ensures id !in chain
  {
    forall i | 0 <= i < |chain|
      ensures chain[i] != id
    {
      assert MainlineLink(store, scope, library, chain, i);
    }
  }

  /** The rows of the candidate are those of itself and of fresh, distinct sources. */
  lemma RowsAreFresh(scope: Scope, store: Store, library: Library, chain: seq<Id>, id: Id, rows: seq<Role>)
    requires Consistent(scope, store, library, chain)
    requires CandidateSound(store, scope, library, id, rows)
    requires RowsAgree(library.roles, id, rows)
    ensures var sources := SourcesOf(store, scope, library, id, rows);
            && id !in library.published && id !in sources
            && CommitsOf(rows) == {id} + set s | s in sources
  {
    var sources := SourcesOf(store, scope, library, id, rows);
    CandidateIsNew(scope, store, library, chain, id, rows);
    assert rows[0] == Role(id, Mainline, id);
    assert RowReads(library.roles, id, rows, 0);
    assert id in library.roles ==> RowPlaced(store, scope, library, chain, id);
    forall i | 0 <= i < |sources|
      ensures sources[i] != id
    {
      assert rows[i + 1].commitId == sources[i] && rows[0] in rows[..i + 1];
      assert RowReads(library.roles, id, rows, i + 1);
    }
    forall s | s in sources
      ensures s in CommitsOf(rows)
    {
      var i :| 0 <= i < |sources| && sources[i] == s;
      assert rows[i + 1] == Role(s, MergeSource, id);
    }
  }

  /** After the transaction, the sources hang off the candidate and old merges are as they were. */
  lemma MergesAfterAdvance(scope: Scope, store: Store, before: Library, after: Library, chain: seq<Id>, id: Id, rows: seq<Role>)
    requires Consistent(scope, store, before, chain)
    requires CandidateSound(store, scope, before, id, rows)
    requires RowsAgree(before.roles, id, rows) && Advanced(before, after, id, rows)
    ensures |CommitAt(store, scope, id).parents| == 2 ==>
              IsMergeOf(store, scope, after, id, SourcesOf(store, scope, before, id, rows))
    ensures forall m, sources :: IsMergeOf(store, scope, before, m, sources) ==> IsMergeOf(store, scope, after, m, sources)
  {
    var sources := SourcesOf(store, scope, before, id, rows);
    if |CommitAt(store, scope, id).parents| == 2 {
      forall i | 0 <= i < |sources|
        ensures MergeLink(store, scope, after, id, sources, i)
      {
        assert SourceLink(store, scope, before, sources, i);
        assert rows[i + 1] == Role(sources[i], MergeSource, id);
        assert rows[i + 1] in rows;
      }
    }
    forall m, old_ | IsMergeOf(store, scope, before, m, old_)
      ensures IsMergeOf(store, scope, after, m, old_)
    {
      forall i | 0 <= i < |old_|
        ensures MergeLink(store, scope, after, m, old_, i)
      {
        assert MergeLink(store, scope, before, m, old_, i);
      }
    }
  }

  /** The mainline grows by the candidate, at its front. */
  lemma MainlineAfterAdvance(scope: Scope, store: Store, before: Library, after: Library, chain: seq<Id>, id: Id, rows: seq<Role>)
    requires Consistent(scope, store, before, chain)
    requires CandidateSound(store, scope, before, id, rows)
    requires RowsAgree(before.roles, id, rows) && Advanced(before, after, id, rows)
    ensures IsMainlineChain(store, scope, after, [id] + chain)
  {
    var longer := [id] + chain;
    CandidateIsNew(scope, store, before, chain, id, rows);
    MergesAfterAdvance(scope, store, before, after, chain, id, rows);
    assert rows[0] == Role(id, Mainline, id) && rows[0] in rows;
    forall i | 0 <= i < |longer|
      ensures MainlineLink(store, scope, after, longer, i)
    {
      if i > 0 {
        assert longer[i] == chain[i - 1];
        assert i + 1 < |longer| ==> longer[i + 1] == chain[i];
        assert MainlineLink(store, scope, before, chain, i - 1);
      } else {
        assert longer[0] == id && (chain != [] ==> longer[1] == chain[0]);
      }
    }
  }

  /** A row of the candidate or of one of its sources. */
  lemma NewRowPlaced(store: Store, scope: Scope, after: Library, longer: seq<Id>, id: Id, sources: seq<Id>, k: Id)
    requires longer != [] && longer[0] == id && k in after.roles
    requires if k == id then after.roles[k] == Role(id, Mainline, id)
             else k in sources && after.roles[k] == Role(k, MergeSource, id) && IsMergeOf(store, scope, after, id, sources)
    ensures RowPlaced(store, scope, after, longer, k)
  {
    assert longer[0] in longer;
  }

  /** And every row, old or new, has its place. */
  lemma RowsAfterAdvance(scope: Scope, store: Store, before: Library, after: Library, chain: seq<Id>, id: Id, rows: seq<Role>)
    requires Consistent(scope, store, before, chain)
    requires CandidateSound(store, scope, before, id, rows)
    requires RowsAgree(before.roles, id, rows) && Advanced(before, after, id, rows)
    ensures RowsPlaced(store, scope, after, [id] + chain)
  {
    RowsAreFresh(scope, store, before, chain, id, rows);
    MergesAfterAdvance(scope, store, before, after, chain, id, rows);
    forall k | k in after.roles
      ensures RowPlaced(store, scope, after, [id] + chain, k)
    {
      RowAfterAdvance(scope, store, before, after, chain, id, rows, k);
    }
  }

  lemma RowAfterAdvance(scope: Scope, store: Store, before: Library, after: Library, chain: seq<Id>, id: Id, rows: seq<Role>, k: Id)
    requires Consistent(scope, store, before, chain)
    requires CandidateSound(store, scope, before, id, rows)
    requires RowsAgree(before.roles, id, rows) && Advanced(before, after, id, rows) && k in after.roles
    ensures RowPlaced(store, scope, after, [id] + chain, k)
  {
    var longer := [id] + chain;
    var sources := SourcesOf(store, scope, before, id, rows);
    RowsAreFresh(scope, store, before, chain, id, rows);
    MergesAfterAdvance(scope, store, before, after, chain, id, rows);
    if k in before.roles {
      assert RowPlaced(store, scope, before, chain, k);
    } else {
      assert rows[0] == Role(id, Mainline, id) && rows[0] in rows;
      if k != id {
        var i :| 0 <= i < |sources| && sources[i] == k;
        assert rows[i + 1] == Role(k, MergeSource, id) && rows[i + 1] in rows;
      }
      NewRowPlaced(store, scope, after, longer, id, sources, k);
    }
  }

  /** The keys a published candidate accounts for: old closure, its own commits, their snapshots. */
  ghost predicate Accounted(scope: Scope, store: Store, before: Library, commits: set<Id>, key: Key) {
    || Reachable(store, PublishedRoots(scope, before), key)
    || (key.scope == scope && key.kind == Commits && key.id in commits)
    || (exists c :: c in commits && Readable(store, Key(scope, Commits, c)) &&
                    Reachable(store, {Key(scope, Directories, CommitAt(store, scope, c).root)}, key))
  }

  lemma AccountedStep(scope: Scope, store: Store, before: Library, commits: set<Id>, key: Key, next: Key)
    requires forall c, p :: c in commits && Readable(store, Key(scope, Commits, c)) && p in CommitAt(store, scope, c).parents ==>
               p in before.published || p in commits
    requires Accounted(scope, store, before, commits, key) && next in Refs(store, key)
    ensures Accounted(scope, store, before, commits, next)
  {
    if Reachable(store, PublishedRoots(scope, before), key) {
      StepReachable(store, PublishedRoots(scope, before), key, next);
    } else if key.scope == scope && key.kind == Commits && key.id in commits {
      var commit := CommitAt(store, scope, key.id);
      if next == Key(scope, Directories, commit.root) {
        RootReachable(store, {next}, next);
      } else {
        assert next.kind == Commits && next.id in commit.parents;
        if next.id in before.published {
          PublishedReachable(scope, store, before, next.id);
        }
      }
    } else {
      var c :| c in commits && Readable(store, Key(scope, Commits, c)) &&
               Reachable(store, {Key(scope, Directories, CommitAt(store, scope, c).root)}, key);
      StepReachable(store, {Key(scope, Directories, CommitAt(store, scope, c).root)}, key, next);
    }
  }

  /** Everything reachable from the published commits, the candidate now among them, is sound. */
  lemma ClosureAfterAdvance(scope: Scope, store: Store, before: Library, after: Library, chain: seq<Id>, id: Id, rows: seq<Role>)
    requires Consistent(scope, store, before, chain)
    requires CandidateSound(store, scope, before, id, rows)
    requires RowsAgree(before.roles, id, rows) && Advanced(before, after, id, rows)
    ensures SoundClosure(store, PublishedRoots(scope, after))
  {
    var sources := SourcesOf(store, scope, before, id, rows);
    RowsAreFresh(scope, store, before, chain, id, rows);
    var commits := {id} + set s | s in sources;
    CandidateParents(scope, store, before, id, rows);
    forall k | Reachable(store, PublishedRoots(scope, after), k)
      ensures Sound(store, k)
    {
      var path: seq<Key> :| IsPath(store, path) && path[0] in PublishedRoots(scope, after) && path[|path| - 1] == k;
      if path[0].id in before.published {
        PublishedReachable(scope, store, before, path[0].id);
      }
      var i := 0;
      while i < |path| - 1
        invariant 0 <= i < |path| && Accounted(scope, store, before, commits, path[i])
      {
        AccountedStep(scope, store, before, commits, path[i], path[i + 1]);
        i := i + 1;
      }
    }
  }

  lemma CandidateParents(scope: Scope, store: Store, library: Library, id: Id, rows: seq<Role>)
    requires CandidateSound(store, scope, library, id, rows)
    ensures var commits := {id} + set s | s in SourcesOf(store, scope, library, id, rows);
            forall c :: c in commits ==>
              && Readable(store, Key(scope, Commits, c))
              && SoundClosure(store, {Key(scope, Directories, CommitAt(store, scope, c).root)})
              && forall p :: p in CommitAt(store, scope, c).parents ==> p in library.published || p in commits
  {
    var sources := SourcesOf(store, scope, library, id, rows);
    var commits := {id} + set s | s in sources;
    forall c | c in commits
      ensures Readable(store, Key(scope, Commits, c))
      ensures SoundClosure(store, {Key(scope, Directories, CommitAt(store, scope, c).root)})
      ensures forall p :: p in CommitAt(store, scope, c).parents ==> p in library.published || p in commits
    {
      if c in sources {
        var i :| 0 <= i < |sources| && sources[i] == c;
        assert SourceLink(store, scope, library, sources, i);
      }
    }
  }

  // ---- every step, every run ----

  /** One step keeps the invariant; a successful Head update puts its commit in front of the mainline. */
  lemma StepKeepsInvariant(scope: Scope, s: System, step: Step, t: System, chain: seq<Id>) returns (next: seq<Id>)
    requires Invariant(scope, s, chain) && Next(scope, s, step, t)
    ensures Invariant(scope, t, next)
    ensures next == if t.library.version == s.library.version then chain else [t.library.head.value] + chain
    ensures t.library.version == s.library.version ==> t.library == s.library
  {
    next := chain;
    match step {
      case Upload(key, obj) =>
        GrowthKeeps(s.store, t.store, PublishedRoots(scope, s.library));
        ConsistentKept(scope, s.store, t.store, s.library, chain);
        forall u | u in t.inflight && u.expectedVersion == t.library.version
          ensures CandidateSound(t.store, scope, t.library, u.commitId, u.rows)
        {
          CandidateKept(scope, s.store, t.store, s.library, u.commitId, u.rows);
        }
      case Admit(update) =>
      case Commit_(u) =>
        if t.library != s.library {
          MainlineAfterAdvance(scope, s.store, s.library, t.library, chain, u.commitId, u.rows);
          RowsAfterAdvance(scope, s.store, s.library, t.library, chain, u.commitId, u.rows);
          ClosureAfterAdvance(scope, s.store, s.library, t.library, chain, u.commitId, u.rows);
          next := [u.commitId] + chain;
        }
      case Abandon(update) =>
      case Collect(left) =>
        ConsistentKept(scope, s.store, t.store, s.library, chain);
    }
  }

  ghost predicate Steps(scope: Scope, s: System, t: System) {
    exists step :: Next(scope, s, step, t)
  }

  ghost predicate IsRun(scope: Scope, states: seq<System>) {
    && states != [] && Initial(states[0])
    && forall i :: 0 < i < |states| ==> Steps(scope, states[i - 1], states[i])
  }

  /** The invariant holds in every state of every run. */
  lemma {:induction false} RunKeepsInvariant(scope: Scope, states: seq<System>) returns (chain: seq<Id>)
    requires IsRun(scope, states)
    ensures Invariant(scope, states[|states| - 1], chain)
  {
    if |states| == 1 {
      InitialInvariant(scope, states[0]);
      chain := [];
    } else {
      var shorter := states[..|states| - 1];
      assert forall i :: 0 <= i < |shorter| ==> shorter[i] == states[i];
      var before := RunKeepsInvariant(scope, shorter);
      assert Steps(scope, states[|states| - 2], states[|states| - 1]);
      var step :| Next(scope, states[|states| - 2], step, states[|states| - 1]);
      chain := StepKeepsInvariant(scope, states[|states| - 2], step, states[|states| - 1], before);
    }
  }

  /**
    No published object is ever lost: what is reachable from the published commits at any point
    of a run is stored, sound and unchanged at every later point.
   */
  lemma {:induction false} PublishedStaysStored(scope: Scope, states: seq<System>, i: nat, j: nat, key: Key)
    requires IsRun(scope, states) && i <= j < |states|
    requires Reachable(states[i].store, PublishedRoots(scope, states[i].library), key)
    ensures Readable(states[i].store, key) && Readable(states[j].store, key)
    ensures states[j].store[key] == states[i].store[key]
    ensures Reachable(states[j].store, PublishedRoots(scope, states[j].library), key)
    decreases j - i
  {
    var chain := InvariantAt(scope, states, i);
    if i < j {
      var s, t := states[i], states[i + 1];
      assert Steps(scope, s, t);
      var step :| Next(scope, s, step, t);
      StepKeepsReachable(scope, s, step, t, chain, key);
      PublishedStaysStored(scope, states, i + 1, j, key);
    } else {
      assert Sound(states[i].store, key);
    }
  }

  lemma InvariantAt(scope: Scope, states: seq<System>, i: nat) returns (chain: seq<Id>)
    requires IsRun(scope, states) && i < |states|
    ensures Invariant(scope, states[i], chain)
  {
    var prefix := states[..i + 1];
    assert forall k :: 0 <= k < |prefix| ==> prefix[k] == states[k];
    chain := RunKeepsInvariant(scope, prefix);
  }

  /** The key is readable, and stored with the same object later. */
  ghost predicate SameStored(before: Store, after: Store, key: Key) {
    Readable(before, key) && key in after && after[key] == before[key]
  }

  /** Along a path from a root everything is stored as before, so the path is still there. */
  lemma {:induction false} PathStays(before: Store, after: Store, roots: set<Key>, more: set<Key>, path: seq<Key>, i: nat)
    requires roots <= more && IsPath(before, path) && path[0] in roots && i < |path|
    requires forall key {:trigger SameStored(before, after, key)} :: Reachable(before, roots, key) ==> SameStored(before, after, key)
    ensures Reachable(before, roots, path[i]) && SameStored(before, after, path[i]) && Reachable(after, more, path[i])
  {
    if i == 0 {
      RootReachable(before, roots, path[0]);
      RootReachable(after, more, path[0]);
      assert SameStored(before, after, path[0]);
    } else {
      PathStays(before, after, roots, more, path, i - 1);
      assert path[i - 1 + 1] in Refs(before, path[i - 1]);
      StepReachable(before, roots, path[i - 1], path[i]);
      assert SameStored(before, after, path[i]);
      StepReachable(after, more, path[i - 1], path[i]);
    }
  }

  lemma StepKeepsReachable(scope: Scope, s: System, step: Step, t: System, chain: seq<Id>, key: Key)
    requires Invariant(scope, s, chain) && Next(scope, s, step, t)
    requires Reachable(s.store, PublishedRoots(scope, s.library), key)
    ensures Readable(s.store, key) && key in t.store && t.store[key] == s.store[key]
    ensures Reachable(t.store, PublishedRoots(scope, t.library), key)
  {
    var roots, more := PublishedRoots(scope, s.library), PublishedRoots(scope, t.library);
    forall k | Reachable(s.store, roots, k)
      ensures SameStored(s.store, t.store, k)
    {
      StoredStays(scope, s, step, t, k);
    }
    RootsGrow(scope, s, step, t);
    ReachableStays(s.store, t.store, roots, more, key);
  }

  lemma RootsGrow(scope: Scope, s: System, step: Step, t: System)
    requires Next(scope, s, step, t)
    ensures PublishedRoots(scope, s.library) <= PublishedRoots(scope, t.library)
  {
    assert s.library.published <= t.library.published;
  }

  lemma ReachableStays(before: Store, after: Store, roots: set<Key>, more: set<Key>, key: Key)
    requires roots <= more && Reachable(before, roots, key)
    requires forall k {:trigger SameStored(before, after, k)} :: Reachable(before, roots, k) ==> SameStored(before, after, k)
    ensures SameStored(before, after, key) && Reachable(after, more, key)
  {
    var path :| IsPath(before, path) && path[0] in roots && path[|path| - 1] == key;
    PathStays(before, after, roots, more, path, |path| - 1);
  }

  lemma StoredStays(scope: Scope, s: System, step: Step, t: System, key: Key)
    requires Next(scope, s, step, t)
    requires SoundClosure(s.store, PublishedRoots(scope, s.library))
    requires Reachable(s.store, PublishedRoots(scope, s.library), key)
    ensures Readable(s.store, key) && key in t.store && t.store[key] == s.store[key]
  {
    assert Sound(s.store, key);
  }

  /** One step leaves the mainline alone or puts one commit in front, and keeps every row. */
  lemma StepGrowsHistory(scope: Scope, before: System, after: System, chain: seq<Id>) returns (newer: seq<Id>)
    requires Steps(scope, before, after) && Invariant(scope, before, chain)
    ensures Invariant(scope, after, newer + chain)
    ensures forall id :: id in before.library.roles ==> id in after.library.roles && after.library.roles[id] == before.library.roles[id]
  {
    var step :| Next(scope, before, step, after);
    RolesStay(scope, before, step, after);
    var next := StepKeepsInvariant(scope, before, step, after, chain);
    newer := if after.library.version == before.library.version then [] else [after.library.head.value];
    assert next == newer + chain;
  }

  lemma RolesStay(scope: Scope, s: System, step: Step, t: System)
    requires Next(scope, s, step, t)
    ensures forall id :: id in s.library.roles ==> id in t.library.roles && t.library.roles[id] == s.library.roles[id]
  {
  }

  /**
    History only grows: at a later point of a run the mainline is the earlier mainline with the
    commits published since in front of it, and every earlier role row is still there unchanged.
   */
  lemma {:induction false} HistoryOnlyGrows(scope: Scope, states: seq<System>, i: nat, j: nat, chain: seq<Id>)
    returns (newer: seq<Id>)
    requires IsRun(scope, states) && i <= j < |states|
    requires Invariant(scope, states[i], chain)
    ensures Invariant(scope, states[j], newer + chain)
    ensures forall id :: id in states[i].library.roles ==>
              id in states[j].library.roles && states[j].library.roles[id] == states[i].library.roles[id]
    decreases j - i
  {
    newer := [];
    assert newer + chain == chain;
    if i < j {
      assert Steps(scope, states[i], states[i + 1]);
      var step := StepGrowsHistory(scope, states[i], states[i + 1], chain);
      var rest := HistoryOnlyGrows(scope, states, i + 1, j, step + chain);
      newer := rest + step;
      assert newer + chain == rest + (step + chain);
    }
  }
}
