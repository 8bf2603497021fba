/** The restore planner: it overlays, keeps the books on every path, and stays within its budgets. */
module RestorePlanner {
  import opened Wrappers
  import opened Bytes
  import opened Sorting
  import opened ConflictNames
  import opened Trees
  import T = TreeMerge
  import opened MergeLaws
  import opened RestoreOverlay
  import M = TreeMerger
  import P = Paths

  datatype Budget = Budget(maxDepth: nat, maxObjects: nat, maxPaths: nat, maxPathBytes: nat, maxEntries: nat)

  datatype PlanError = NotFound | BudgetExceeded | InvalidPath | NotCanonical

  // ---- the books ----

  /** The paths recorded in each book, and two of the counters. */
  datatype Books = Books(changed: set<Path>, types: set<Path>, removed: set<Path>, preserved: set<Path>, created: set<Path>, updated: set<Path>,
                         createdCount: nat, updatedCount: nat)

  // ---- visiting whole subtrees ----

  datatype Visit = VisitCreated | VisitRemoved | VisitPreserved

  function Visited(visit: Visit, books: Books, path: Path): Books {
    match visit
    case VisitCreated => books.(changed := books.changed + {path}, created := books.created + {path}, createdCount := books.createdCount + 1)
    case VisitRemoved => books.(removed := books.removed + {path})
    case VisitPreserved => books.(preserved := books.preserved + {path})
  }

  function Updates(books: Books, path: Path): Books {
    books.(changed := books.changed + {path}, updated := books.updated + {path}, updatedCount := books.updatedCount + 1)
  }

  function Replaces(books: Books, path: Path): Books {
    books.(changed := books.changed + {path}, types := books.types + {path})
  }

  lemma OrderedHas(names: set<Bytes>, i: nat)
    requires i < |T.Ordered(names)|
    ensures T.Ordered(names)[i] in names
  {
    OrderedNames(names);
  }

  /** The result of merging a node: the source, laid over what is there. */
  function Merged(current: Option<Slot>, source: Slot): Slot {
    if current.None? then source else Overlay(current.value, source)
  }

  const NoBooks: Books := Books({}, {}, {}, {}, {}, {}, 0, 0)

  // ---- what the program records, step by step ----

  /** A path is recorded as changed once only. */
  function RecordCreate(books: Books, path: Path): Books {
    if path in books.changed then books else Visited(VisitCreated, books, path)
  }

  function RecordUpdate(books: Books, path: Path): Books {
    if path in books.changed then books else Updates(books, path)
  }

  function RecordReplacement(books: Books, path: Path): Books {
    if path in books.changed then books else Replaces(books, path)
  }

  function RecordVisit(visit: Visit, books: Books, path: Path): Books {
    if visit == VisitCreated then RecordCreate(books, path) else Visited(visit, books, path)
  }

  ghost function Walk(visit: Visit, books: Books, path: Path, slot: Slot): Books
    decreases slot.node, 1, 0
  {
    var first := RecordVisit(visit, books, path);
    if slot.node.File? then first else WalkNames(visit, first, path, slot.node, T.Ordered(slot.node.entries.Keys))
  }

  ghost function WalkNames(visit: Visit, books: Books, path: Path, n: Node, names: seq<Bytes>): Books
    requires n.Dir?
    decreases n, 0, |names|
  {
    if names == [] then books
    else
      var next := if names[0] in n.entries then Walk(visit, books, path + [names[0]], n.entries[names[0]]) else books;
      WalkNames(visit, next, path, n, names[1..])
  }

  lemma WalkNamesStep(visit: Visit, books: Books, path: Path, n: Node, names: seq<Bytes>, i: nat)
    requires n.Dir? && i < |names| && names[i] in n.entries
    ensures WalkNames(visit, books, path, n, names[i..]) ==
              WalkNames(visit, Walk(visit, books, path + [names[i]], n.entries[names[i]]), path, n, names[i + 1..])
  {
    assert names[i..][0] == names[i] && names[i..][1..] == names[i + 1..];
  }

  ghost function WalkBelow(visit: Visit, books: Books, path: Path, slot: Slot): Books {
    if slot.node.File? then books else WalkNames(visit, books, path, slot.node, T.Ordered(slot.node.entries.Keys))
  }

  ghost function Replace(books: Books, path: Path, current: Slot, source: Slot): Books {
    RecordReplacement(WalkBelow(VisitCreated, WalkBelow(VisitRemoved, books, path, current), path, source), path)
  }

  function UnionNames(current: Node, source: Node): set<Bytes>
    requires current.Dir? && source.Dir?
  {
    current.entries.Keys + source.entries.Keys
  }

  ghost function Merge(books: Books, current: Option<Slot>, source: Slot, path: Path, root: bool): Books
    decreases source.node, 3, 0
  {
    if current.None? then Walk(VisitCreated, books, path, source)
    else if !SameKind(current.value, source) then Replace(books, path, current.value, source)
    else if source.node.File? then (if current.value == source then books else RecordUpdate(books, path))
    else MergeDirs(books, current.value, source, path, root)
  }

  ghost function MergeDirs(books: Books, current: Slot, source: Slot, path: Path, root: bool): Books
    requires current.node.Dir? && source.node.Dir?
    decreases source.node, 2, 0
  {
    var inner := MergeNames(books, current.node, source.node, path, T.Ordered(UnionNames(current.node, source.node)));
    RecordDirectory(inner, path, root, current, Overlay(current, source))
  }

  /** A directory is recorded when it is not the root and differs from what was there. */
  function RecordDirectory(books: Books, path: Path, root: bool, current: Slot, result: Slot): Books {
    if !root && result != current then RecordUpdate(books, path) else books
  }

  ghost function MergeNames(books: Books, current: Node, source: Node, path: Path, names: seq<Bytes>): Books
    requires current.Dir? && source.Dir?
    decreases source, 1, |names|
  {
    if names == [] then books
    else MergeNames(MergeName(books, current, source, path, names[0]), current, source, path, names[1..])
  }

  lemma MergeNamesStep(books: Books, current: Node, source: Node, path: Path, names: seq<Bytes>, i: nat)
    requires current.Dir? && source.Dir? && i < |names|
    ensures MergeNames(books, current, source, path, names[i..]) ==
              MergeNames(MergeName(books, current, source, path, names[i]), current, source, path, names[i + 1..])
  {
    assert names[i..][0] == names[i] && names[i..][1..] == names[i + 1..];
  }

  ghost function MergeName(books: Books, current: Node, source: Node, path: Path, name: Bytes): Books
    requires current.Dir? && source.Dir?
    decreases source, 0, 0
  {
    if name in source.entries then Merge(books, Get(current, name), source.entries[name], path + [name], false)
    else if name in current.entries then Walk(VisitPreserved, books, path + [name], current.entries[name])
    else books
  }

  ghost function Build(books: Books, source: Slot, parts: Path, path: Path): Books
    requires parts != []
    decreases |parts|
  {
    var next := Get(source.node, parts[0]);
    if next.None? then books
    else
      var inner := if |parts| == 1 then Merge(books, None, next.value, path + [parts[0]], false)
                   else Build(books, next.value, parts[1..], path + [parts[0]]);
      RecordCreate(inner, path)
  }

  ghost function ApplyBooks(books: Books, current: Option<Slot>, source: Slot, parts: Path, path: Path, root: bool): Books
    decreases |parts|
  {
    if parts == [] then Merge(books, current, source, path, root)
    else if source.node.File? then books
    else if current.None? then Build(books, source, parts, path)
    else if current.value.node.File? then Replace(books, path, current.value, source)
    else
      var next, result := Get(source.node, parts[0]), Apply(current, source, parts);
      if next.None? || result.None? then books
      else
        var inner := ApplyBooks(books, Get(current.value.node, parts[0]), next.value, parts[1..], path + [parts[0]], false);
        RecordDirectory(inner, path, root, current.value, result.value)
  }

  /** Every path that is recorded anywhere. */
  function Recorded(books: Books): set<Path> {
    books.changed + books.removed + books.preserved
  }

  ghost predicate RankSound(rank: Node -> nat) {
    forall n, name :: Get(n, name).Some? ==> rank(Get(n, name).value.node) < rank(n)
  }

  ghost function HeightRank(): Node -> nat {
    n => M.Height(n)
  }

  lemma HeightRankSound()
    ensures RankSound(HeightRank())
  {
    forall n, name | Get(n, name).Some?
      ensures HeightRank()(Get(n, name).value.node) < HeightRank()(n)
    {
      M.ChildIsLower(n, name);
    }
  }

  lemma RankOfChild(rank: Node -> nat, n: Node, name: Bytes)
    requires RankSound(rank) && Get(n, name).Some?
    ensures rank(Get(n, name).value.node) < rank(n)
  {
  }

  /** A path a result may have: within the limits, of valid names. */
  predicate OkPath(rules: Rules, budget: Budget, path: Path) {
    && path != [] && |path| <= budget.maxDepth && |path| <= P.MaxPathDepth
    && |P.Join(path)| <= budget.maxPathBytes && |P.Join(path)| <= P.MaxPathBytes
    && forall name :: name in path ==> rules.validName(name)
  }

  // ---- the planner ----

  class Planner {
    const rules: Rules
    const budget: Budget
    /** The check of a single path, by these rules and this budget. */
    const okPath: Path -> bool
    var directories: set<Node>
    var files: set<nat>
    var synthesized: set<Node>
    var active: set<(Node, Node)>
    var activeWalk: set<Node>
    /** What was recorded; the program keeps one map for each book, and for the last two only their sizes. */
    var books: Books
    var validatedPaths: set<Path>
    var objectCount: nat
    /** How deep a directory's tree is; the cycle guards only ever hold deeper ones. */
    ghost const rank: Node -> nat

    constructor (rules: Rules, budget: Budget)
      ensures this.rules == rules && this.budget == budget && Valid() && Checked() && active == {} && activeWalk == {}
      ensures books == NoBooks && validatedPaths == {} && forall p :: okPath(p) <==> OkPath(rules, budget, p)
    {
      this.rules, this.budget := rules, budget;
      directories, files, synthesized, active, activeWalk := {}, {}, {}, {}, {};
      validatedPaths, objectCount, books := {}, 0, NoBooks;
      okPath := path => OkPath(rules, budget, path);
      rank := HeightRank();
      HeightRankSound();
    }

    /** Only validated paths are recorded. */
    ghost predicate Valid()
      reads this`books, this`validatedPaths
    {
      Recorded(books) <= validatedPaths
    }

    /** Every validated path passed the check, and there are not too many. */
    ghost predicate Checked()
      reads this`validatedPaths
    {
      |validatedPaths| <= budget.maxPaths && (forall p :: p in validatedPaths ==> okPath(p)) && RankSound(rank)
    }

    method CountObject() returns (ok: bool)
      modifies this`objectCount
      ensures ok <==> objectCount <= budget.maxObjects
    {
      objectCount := objectCount + 1;
      return objectCount <= budget.maxObjects;
    }

    method LoadDirectory(n: Node) returns (ok: bool)
      requires n.Dir?
      modifies this`directories, this`objectCount
      ensures old(directories) <= directories && (n in old(directories) ==> ok)
      ensures ok && n !in old(directories) ==> |n.entries| <= budget.maxEntries && objectCount <= budget.maxObjects
    {
      if n in directories {
        return true;
      }
      ok := CountObject();
      if !ok || |n.entries| > budget.maxEntries {
        return false;
      }
      directories := directories + {n};
      return true;
    }

    method LoadFile(content: nat) returns (ok: bool)
      modifies this`files, this`objectCount
      ensures content in old(files) ==> ok
    {
      if content in files {
        return true;
      }
      ok := CountObject();
      if ok {
        files := files + {content};
      }
    }

    method ValidateResultPath(path: Path) returns (r: Result<(), PlanError>)
      requires Valid() && Checked()
      modifies this`validatedPaths
      ensures Valid() && Checked()
      ensures r.Ok? ==> validatedPaths == old(validatedPaths) + {path} && okPath(path)
      ensures r.Err? ==> validatedPaths == old(validatedPaths) && r.error != NotFound
    {
      if |path| > budget.maxDepth {
        return Err(BudgetExceeded);
      }
      if !okPath(path) {
        return Err(InvalidPath);
      }
      if path in validatedPaths {
        assert validatedPaths == validatedPaths + {path};
        return Ok(());
      }
      if |validatedPaths| >= budget.maxPaths {
        return Err(BudgetExceeded);
      }
      validatedPaths := validatedPaths + {path};
      return Ok(());
    }

    // ---- recording ----

    method RecordCreated(path: Path)
      requires Valid() && path in validatedPaths
      modifies this`books
      ensures Valid() && books == RecordCreate(old(books), path)
    {
      if path in books.changed {
        return;
      }
      books := Visited(VisitCreated, books, path);
    }

    method RecordUpdated(path: Path)
      requires Valid() && path in validatedPaths
      modifies this`books
      ensures Valid() && books == RecordUpdate(old(books), path)
    {
      if path in books.changed {
        return;
      }
      books := Updates(books, path);
    }

    method RecordTypeReplacement(path: Path)
      requires Valid() && path in validatedPaths
      modifies this`books
      ensures Valid() && books == RecordReplacement(old(books), path)
    {
      if path in books.changed {
        return;
      }
      books := Replaces(books, path);
    }

    method Record(visit: Visit, path: Path)
      requires Valid() && path in validatedPaths
      modifies this`books
      ensures Valid() && books == RecordVisit(visit, old(books), path)
    {
      match visit
      case VisitCreated =>
        RecordCreated(path);
      case VisitRemoved =>
        books := Visited(visit, books, path);
      case VisitPreserved =>
        books := Visited(visit, books, path);
    }

    // ---- walking ----

    ghost predicate WalkAbove(n: Node, own: nat)
      reads this`activeWalk
    {
      forall other :: other in activeWalk ==> rank(other) + own > rank(n)
    }

    method WalkSubtree(slot: Slot, path: Path, visit: Visit) returns (r: Result<(), PlanError>)
      requires Valid() && Checked() && WalkAbove(slot.node, 0)
      modifies this`directories, this`files, this`objectCount, this`activeWalk, this`validatedPaths, this`books
      ensures Valid() && Checked() && unchanged(`activeWalk) && old(validatedPaths) <= validatedPaths
      ensures if r.Ok? then books == Walk(visit, old(books), path, slot) else r.error != NotFound
      decreases slot.node, 3
    {
      var ok := ValidateResultPath(path);
      if ok.Err? {
        return ok;
      }
      if slot.node.File? {
        r := WalkFile(slot, path, visit);
      } else {
        r := WalkGuarded(slot, path, visit);
      }
    }

    method WalkFile(slot: Slot, path: Path, visit: Visit) returns (r: Result<(), PlanError>)
      requires Valid() && slot.node.File? && path in validatedPaths
      modifies this`files, this`objectCount, this`books
      ensures Valid()
      ensures if r.Ok? then books == Walk(visit, old(books), path, slot) else r.error != NotFound
    {
      var loaded := LoadFile(slot.node.content);
      if !loaded {
        return Err(BudgetExceeded);
      }
      Record(visit, path);
      return Ok(());
    }

    /** Walks a directory with the cycle guard set. */
    method WalkGuarded(slot: Slot, path: Path, visit: Visit) returns (r: Result<(), PlanError>)
      requires Valid() && Checked() && slot.node.Dir? && WalkAbove(slot.node, 0) && path in validatedPaths
      modifies this`directories, this`files, this`objectCount, this`activeWalk, this`validatedPaths, this`books
      ensures Valid() && Checked() && unchanged(`activeWalk) && old(validatedPaths) <= validatedPaths
      ensures if r.Ok? then books == Walk(visit, old(books), path, slot) else r.error != NotFound
      decreases slot.node, 2
    {
      // The program fails here when the directory is already being walked; in trees it never is.
      assert slot.node !in activeWalk;
      AddRemove(activeWalk, slot.node);
      activeWalk := activeWalk + {slot.node};
      var loaded := LoadDirectory(slot.node);
      if loaded {
        Record(visit, path);
        r := WalkEntries(slot.node, path, visit);
      } else {
        r := Err(BudgetExceeded);
      }
      activeWalk := activeWalk - {slot.node};
    }

    /** Every entry of a directory, in order. */
    method WalkEntries(n: Node, path: Path, visit: Visit) returns (r: Result<(), PlanError>)
      requires Valid() && Checked() && n.Dir? && WalkAbove(n, 1)
      modifies this`directories, this`files, this`objectCount, this`activeWalk, this`validatedPaths, this`books
      ensures Valid() && Checked() && unchanged(`activeWalk) && old(validatedPaths) <= validatedPaths
      ensures if r.Ok? then books == WalkNames(visit, old(books), path, n, T.Ordered(n.entries.Keys)) else r.error != NotFound
      decreases n, 1
    {
      var names := M.SortNames(n.entries.Keys);
      ghost var whole := WalkNames(visit, books, path, n, names);
      assert names[0..] == names;
      var i := 0;
      while i < |names|
        invariant 0 <= i <= |names| && Valid() && Checked() && unchanged(`activeWalk) && old(validatedPaths) <= validatedPaths
        invariant WalkNames(visit, books, path, n, names[i..]) == whole
      {
        var done := WalkChild(n, names, i, path, visit);
        if done.Err? {
          return done;
        }
        i := i + 1;
      }
      return Ok(());
    }

    method WalkChild(n: Node, names: seq<Bytes>, i: nat, path: Path, visit: Visit) returns (r: Result<(), PlanError>)
      requires Valid() && Checked() && n.Dir? && WalkAbove(n, 1) && names == T.Ordered(n.entries.Keys) && i < |names|
      modifies this`directories, this`files, this`objectCount, this`activeWalk, this`validatedPaths, this`books
      ensures Valid() && Checked() && unchanged(`activeWalk) && old(validatedPaths) <= validatedPaths
      ensures if r.Ok? then WalkNames(visit, books, path, n, names[i + 1..]) == WalkNames(visit, old(books), path, n, names[i..])
              else r.error != NotFound
      decreases n, 0
    {
      OrderedHas(n.entries.Keys, i);
      WalkNamesStep(visit, books, path, n, names, i);
      RankOfChild(rank, n, names[i]);
      r := WalkSubtree(n.entries[names[i]], path + [names[i]], visit);
    }

    method WalkNodeDescendants(slot: Slot, path: Path, visit: Visit) returns (r: Result<(), PlanError>)
      requires Valid() && Checked() && activeWalk == {}
      modifies this`directories, this`files, this`objectCount, this`activeWalk, this`validatedPaths, this`books
      ensures Valid() && Checked() && unchanged(`activeWalk) && old(validatedPaths) <= validatedPaths
      ensures if r.Ok? then books == WalkBelow(visit, old(books), path, slot) else r.error != NotFound
    {
      if slot.node.File? {
        var loaded := LoadFile(slot.node.content);
        return if loaded then Ok(()) else Err(BudgetExceeded);
      }
      var loaded := LoadDirectory(slot.node);
      if !loaded {
        return Err(BudgetExceeded);
      }
      r := WalkEntries(slot.node, path, visit);
    }

    // ---- planning ----

    ghost predicate PairsAbove(n: Node, own: nat)
      reads this`active
    {
      forall pair :: pair in active ==> rank(pair.0) + own > rank(n)
    }

    method ReplaceNode(current: Slot, source: Slot, path: Path) returns (r: Result<Slot, PlanError>)
      requires Valid() && Checked() && activeWalk == {}
      modifies this`directories, this`files, this`objectCount, this`activeWalk, this`validatedPaths, this`books
      ensures Valid() && Checked() && unchanged(`activeWalk) && old(validatedPaths) <= validatedPaths
      ensures if r.Ok? then r.value == source && books == Replace(old(books), path, current, source) else r.error != NotFound
    {
      var ok := ValidateResultPath(path);
      if ok.Err? {
        return Err(ok.error);
      }
      var walked := WalkNodeDescendants(current, path, VisitRemoved);
      if walked.Err? {
        return Err(walked.error);
      }
      walked := WalkNodeDescendants(source, path, VisitCreated);
      if walked.Err? {
        return Err(walked.error);
      }
      RecordTypeReplacement(path);
      return Ok(source);
    }

    method MergeNode(current: Option<Slot>, source: Slot, path: Path, root: bool) returns (r: Result<Slot, PlanError>)
      requires Valid() && Checked() && activeWalk == {} && (root || path in validatedPaths)
      requires root ==> current.Some? && current.value.node.Dir? && source.node.Dir?
      requires current.Some? ==> PairsAbove(current.value.node, 0)
      modifies this
      ensures Valid() && Checked() && unchanged(`active) && unchanged(`activeWalk) && old(validatedPaths) <= validatedPaths
      ensures if r.Ok? then r.value == Merged(current, source) && books == Merge(old(books), current, source, path, root)
              else r.error != NotFound
      decreases source.node, 5
    {
      if current.None? {
        var walked := WalkSubtree(source, path, VisitCreated);
        return if walked.Err? then Err(walked.error) else Ok(source);
      }
      if !SameKind(current.value, source) {
        r := ReplaceNode(current.value, source, path);
        return;
      }
      if source.node.Dir? {
        r := MergeDirectories(current.value, source, path, root);
        return;
      }
      var loaded := LoadFile(current.value.node.content);
      if loaded {
        loaded := LoadFile(source.node.content);
      }
      if !loaded {
        return Err(BudgetExceeded);
      }
      if current.value == source {
        return Ok(source);
      }
      RecordUpdated(path);
      return Ok(source);
    }

    method MergeDirectories(current: Slot, source: Slot, path: Path, root: bool) returns (r: Result<Slot, PlanError>)
      requires Valid() && Checked() && activeWalk == {} && (root || path in validatedPaths)
      requires current.node.Dir? && source.node.Dir? && PairsAbove(current.node, 0)
      modifies this
      ensures Valid() && Checked() && unchanged(`active) && unchanged(`activeWalk) && old(validatedPaths) <= validatedPaths
      ensures if r.Ok? then r.value == Overlay(current, source) && books == MergeDirs(old(books), current, source, path, root)
              else r.error != NotFound
      decreases source.node, 4
    {
      var key := (current.node, source.node);
      // The program fails here when the pair is already being merged; in trees it never is.
      assert key !in active;
      AddRemove(active, key);
      active := active + {key};
      r := MergeEntries(current, source, path, root);
      active := active - {key};
    }

    method MergeEntries(current: Slot, source: Slot, path: Path, root: bool) returns (r: Result<Slot, PlanError>)
      requires Valid() && Checked() && activeWalk == {} && (root || path in validatedPaths)
      requires current.node.Dir? && source.node.Dir? && PairsAbove(current.node, 1)
      modifies this
      ensures Valid() && Checked() && unchanged(`active) && unchanged(`activeWalk) && old(validatedPaths) <= validatedPaths
      ensures if r.Ok? then r.value == Overlay(current, source) && books == MergeDirs(old(books), current, source, path, root)
              else r.error != NotFound
      decreases source.node, 3
    {
      var ordered := M.SortNames(UnionNames(current.node, source.node));
      var loaded := LoadBoth(current.node, source.node);
      if !loaded || |ordered| > budget.maxEntries {
        return Err(BudgetExceeded);
      }
      var entries := MergeAll(current.node, source.node, path, ordered);
      if entries.Err? {
        return Err(entries.error);
      }
      r := StoreMerged(current, source, ordered, entries.value, path, root);
    }

    method LoadBoth(current: Node, source: Node) returns (ok: bool)
      requires current.Dir? && source.Dir?
      modifies this`directories, this`objectCount
      ensures current in old(directories) && source in old(directories) ==> ok
    {
      ok := LoadDirectory(current);
      if ok {
        ok := LoadDirectory(source);
      }
    }

    /** Stores the merged directory and records it when it differs from Current's. */
    method StoreMerged(current: Slot, source: Slot, ordered: seq<Bytes>, entries: seq<Entry>, path: Path, root: bool)
      returns (r: Result<Slot, PlanError>)
      requires Valid() && (root || path in validatedPaths) && current.node.Dir? && source.node.Dir?
      requires ordered == T.Ordered(UnionNames(current.node, source.node))
      requires entries == Picked(Dir(OverlayEntries(current.node, source.node)), ordered)
      modifies this`synthesized, this`books
      ensures Valid()
      ensures if r.Ok? then r.value == Overlay(current, source) && books == RecordDirectory(old(books), path, root, current, r.value)
              else r.error != NotFound
    {
      r := StoreDirectory(current, source, ordered, entries);
      if r.Ok? && !root && r.value != current {
        RecordUpdated(path);
      }
    }

    method StoreDirectory(current: Slot, source: Slot, ordered: seq<Bytes>, entries: seq<Entry>) returns (r: Result<Slot, PlanError>)
      requires current.node.Dir? && source.node.Dir? && ordered == T.Ordered(UnionNames(current.node, source.node))
      requires entries == Picked(Dir(OverlayEntries(current.node, source.node)), ordered)
      modifies this`synthesized
      ensures if r.Ok? then r.value == Overlay(current, source) else r.error != NotFound
    {
      var node := CanonicalDirectory(rules, entries);
      if node.None? {
        return Err(NotCanonical);
      }
      RecordSynthesized(node.value, current.node, source.node);
      var result := Slot(node.value, if source.mtime > current.mtime then source.mtime else current.mtime);
      StoredSlot(current, source, ordered, entries, result);
      return Ok(result);
    }

    method RecordSynthesized(node: Node, current: Node, source: Node)
      modifies this`synthesized
      ensures synthesized == old(synthesized) + if node == current || node == source then {} else {node}
    {
      if node == current || node == source {
        return;
      }
      synthesized := synthesized + {node};
    }

    /** Every name of both directories: kept, taken over, or merged. */
    method MergeAll(current: Node, source: Node, path: Path, ordered: seq<Bytes>) returns (r: Result<seq<Entry>, PlanError>)
      requires Valid() && Checked() && activeWalk == {} && current.Dir? && source.Dir? && PairsAbove(current, 1)
      requires ordered == T.Ordered(UnionNames(current, source))
      modifies this
      ensures Valid() && Checked() && unchanged(`active) && unchanged(`activeWalk) && old(validatedPaths) <= validatedPaths
      ensures if r.Ok? then r.value == Picked(Dir(OverlayEntries(current, source)), ordered) &&
                            books == MergeNames(old(books), current, source, path, ordered)
              else r.error != NotFound
      decreases source, 2
    {
      ghost var whole := MergeNames(books, current, source, path, ordered);
      var entries: seq<Entry> := [];
      var i := 0;
      assert ordered[0..] == ordered;
      while i < |ordered|
        invariant 0 <= i <= |ordered| && Valid() && Checked() && unchanged(`active) && unchanged(`activeWalk) && old(validatedPaths) <= validatedPaths
        invariant entries == Picked(Dir(OverlayEntries(current, source)), ordered[..i])
        invariant MergeNames(books, current, source, path, ordered[i..]) == whole
      {
        OrderedHas(UnionNames(current, source), i);
        MergeNamesStep(books, current, source, path, ordered, i);
        var child := MergeChild(current, source, path, ordered[i]);
        if child.Err? {
          return Err(child.error);
        }
        PickedMore(Dir(OverlayEntries(current, source)), ordered, i);
        entries := entries + [Entry(ordered[i], child.value)];
        i := i + 1;
      }
      assert ordered[..|ordered|] == ordered;
      return Ok(entries);
    }

    method MergeChild(current: Node, source: Node, path: Path, name: Bytes) returns (r: Result<Slot, PlanError>)
      requires Valid() && Checked() && activeWalk == {} && current.Dir? && source.Dir? && PairsAbove(current, 1)
      requires name in current.entries || name in source.entries
      modifies this
      ensures Valid() && Checked() && unchanged(`active) && unchanged(`activeWalk) && old(validatedPaths) <= validatedPaths
      ensures if r.Ok? then Get(Dir(OverlayEntries(current, source)), name) == Some(r.value) &&
                            books == MergeName(old(books), current, source, path, name)
              else r.error != NotFound
      decreases source, 1
    {
      var childPath := path + [name];
      var valid := ValidateResultPath(childPath);
      if valid.Err? {
        return Err(valid.error);
      }
      OverlayNames(current, source, name);
      var c, s := Get(current, name), Get(source, name);
      if s.None? {
        var walked := WalkSubtree(c.value, childPath, VisitPreserved);
        return if walked.Err? then Err(walked.error) else Ok(c.value);
      }
      if c.Some? {
        RankOfChild(rank, current, name);
      }
      r := MergeNode(c, s.value, childPath, false);
    }

    // ---- the restored path ----

    /** Whether the source has the path; a file or directory at its end is loaded. */
    method ResolvePath(root: Node, parts: Path) returns (r: Result<(), PlanError>)
      requires root.Dir?
      modifies this`directories, this`files, this`objectCount
      ensures r.Ok? ==> parts == [] || Find(root, parts).Some?
      ensures r == Err(NotFound) ==> parts != [] && Find(root, parts).None?
    {
      var current := Slot(root, 0);
      var index := 0;
      assert parts[0..] == parts;
      while index < |parts|
        invariant 0 <= index <= |parts|
        invariant index == 0 ==> current.node == root
        invariant SlotAt(Some(Slot(root, 0)), parts) == SlotAt(Some(current), parts[index..])
      {
        // The program guards against a cycle here; in trees no directory is met twice.
        assert parts[index..][0] == parts[index] && parts[index..][1..] == parts[index + 1..];
        if current.node.File? {
          return Err(NotFound);
        }
        var loaded := LoadDirectory(current.node);
        if !loaded {
          return Err(BudgetExceeded);
        }
        var entry := Get(current.node, parts[index]);
        if entry.None? {
          return Err(NotFound);
        }
        current := entry.value;
        index := index + 1;
      }
      if parts != [] {
        var loaded: bool;
        if current.node.File? {
          loaded := LoadFile(current.node.content);
        } else {
          loaded := LoadDirectory(current.node);
        }
        if !loaded {
          return Err(BudgetExceeded);
        }
      }
      return Ok(());
    }

    method BuildMissingPath(source: Slot, parts: Path, path: Path) returns (r: Result<Slot, PlanError>)
      requires Valid() && Checked() && activeWalk == {} && parts != [] && path in validatedPaths
      modifies this
      ensures Valid() && Checked() && unchanged(`active) && unchanged(`activeWalk) && old(validatedPaths) <= validatedPaths
      ensures r.Ok? ==> BuildMissing(source, parts) == Some(r.value) && books == Build(old(books), source, parts, path)
      ensures r == Err(NotFound) ==> BuildMissing(source, parts) == None
      decreases |parts|
    {
      if source.node.File? {
        return Err(NotFound);
      }
      var loaded := LoadDirectory(source.node);
      if !loaded {
        return Err(BudgetExceeded);
      }
      var next := Get(source.node, parts[0]);
      if next.None? {
        return Err(NotFound);
      }
      var child := BuildChild(next.value, parts, path + [parts[0]]);
      if child.Err? {
        return child;
      }
      var node := CanonicalDirectory(rules, [Entry(parts[0], child.value)]);
      if node.None? {
        return Err(NotCanonical);
      }
      RecordSynthesized(node.value, source.node, source.node);
      RecordCreated(path);
      SingleEntry(parts[0], child.value);
      return Ok(Slot(node.value, source.mtime));
    }

    method BuildChild(next: Slot, parts: Path, childPath: Path) returns (r: Result<Slot, PlanError>)
      requires Valid() && Checked() && activeWalk == {} && parts != []
      modifies this
      ensures Valid() && Checked() && unchanged(`active) && unchanged(`activeWalk) && old(validatedPaths) <= validatedPaths
      ensures r.Ok? ==> Some(r.value) == (if |parts| == 1 then Some(next) else BuildMissing(next, parts[1..]))
      ensures r.Ok? ==> books == if |parts| == 1 then Merge(old(books), None, next, childPath, false)
                                 else Build(old(books), next, parts[1..], childPath)
      ensures r == Err(NotFound) ==> |parts| > 1 && BuildMissing(next, parts[1..]) == None
      decreases |parts|, 0
    {
      var valid := ValidateResultPath(childPath);
      if valid.Err? {
        return Err(valid.error);
      }
      if |parts| == 1 {
        r := MergeNode(None, next, childPath, false);
      } else {
        r := BuildMissingPath(next, parts[1..], childPath);
      }
    }

    method ApplyPath(current: Option<Slot>, source: Slot, parts: Path, path: Path, root: bool) returns (r: Result<Slot, PlanError>)
      requires Valid() && Checked() && activeWalk == {} && active == {} && (root || path in validatedPaths)
      requires root ==> current.Some? && current.value.node.Dir? && source.node.Dir?
      modifies this
      ensures Valid() && Checked() && unchanged(`active) && unchanged(`activeWalk) && old(validatedPaths) <= validatedPaths
      ensures r.Ok? ==> Apply(current, source, parts) == Some(r.value) && books == ApplyBooks(old(books), current, source, parts, path, root)
      ensures r == Err(NotFound) ==> Apply(current, source, parts) == None
      decreases |parts|
    {
      if parts == [] {
        r := MergeNode(current, source, path, root);
        return;
      }
      if source.node.File? {
        return Err(NotFound);
      }
      if current.None? {
        r := BuildMissingPath(source, parts, path);
        return;
      }
      if !SameKind(current.value, source) {
        r := ReplaceNode(current.value, source, path);
        return;
      }
      r := ApplyBelow(current.value, source, parts, path, root);
    }

    /** One component of the path, where both trees have a directory. */
    method ApplyBelow(current: Slot, source: Slot, parts: Path, path: Path, root: bool) returns (r: Result<Slot, PlanError>)
      requires Valid() && Checked() && activeWalk == {} && active == {} && (root || path in validatedPaths)
      requires parts != [] && current.node.Dir? && source.node.Dir?
      modifies this
      ensures Valid() && Checked() && unchanged(`active) && unchanged(`activeWalk) && old(validatedPaths) <= validatedPaths
      ensures r.Ok? ==> Apply(Some(current), source, parts) == Some(r.value)
      ensures r.Ok? ==> books == ApplyBooks(old(books), Some(current), source, parts, path, root)
      ensures r == Err(NotFound) ==> Apply(Some(current), source, parts) == None
      decreases |parts|, 0
    {
      var loaded := LoadBoth(current.node, source.node);
      if !loaded {
        return Err(BudgetExceeded);
      }
      var next := Get(source.node, parts[0]);
      if next.None? {
        return Err(NotFound);
      }
      var childPath := path + [parts[0]];
      var valid := ValidateResultPath(childPath);
      if valid.Err? {
        return Err(valid.error);
      }
      var child := ApplyPath(Get(current.node, parts[0]), next.value, parts[1..], childPath, false);
      if child.Err? {
        return child;
      }
      r := StoreApplied(current, source, parts[0], child.value, path, root);
    }

    /** Encodes a directory that was put together, and notes it when it is neither of the two it came from. */
    method StoreMade(node: Node, current: Node, source: Node) returns (r: Result<(), PlanError>)
      requires Valid() && node.Dir?
      modifies this`synthesized
      ensures Valid()
      ensures if r.Ok? then synthesized == old(synthesized) + if node == current || node == source then {} else {node} else r.error != NotFound
    {
      var entries := ListEntries(node);
      if |entries| > budget.maxEntries {
        return Err(BudgetExceeded);
      }
      var made := CanonicalDirectory(rules, entries);
      if made.None? {
        return Err(NotCanonical);
      }
      StoredList(node, entries);
      RecordSynthesized(made.value, current, source);
      return Ok(());
    }

    /** Stores the directory with the one changed entry. */
    method StoreApplied(current: Slot, source: Slot, name: Bytes, child: Slot, path: Path, root: bool) returns (r: Result<Slot, PlanError>)
      requires Valid() && (root || path in validatedPaths) && current.node.Dir? && source.node.Dir?
      modifies this`synthesized, this`books
      ensures Valid()
      ensures if r.Ok? then r.value == Slot(Dir(current.node.entries[name := child]), T.Max(current.mtime, source.mtime)) &&
                            books == RecordDirectory(old(books), path, root, current, r.value)
              else r.error != NotFound
    {
      var result := Slot(Dir(current.node.entries[name := child]), T.Max(current.mtime, source.mtime));
      var stored := StoreMade(result.node, current.node, source.node);
      if stored.Err? {
        return Err(stored.error);
      }
      if !root && result != current {
        RecordUpdated(path);
      }
      return Ok(result);
    }
  }

  /** The entries of a directory, in order. */
  method ListEntries(n: Node) returns (entries: seq<Entry>)
    requires n.Dir?
    ensures entries == Picked(n, T.Ordered(n.entries.Keys))
  {
    var names := M.SortNames(n.entries.Keys);
    entries := [];
    var i := 0;
    while i < |names|
      invariant 0 <= i <= |names| && entries == Picked(n, names[..i])
    {
      OrderedHas(n.entries.Keys, i);
      PickedMore(n, names, i);
      entries := entries + [Entry(names[i], n.entries[names[i]])];
      i := i + 1;
    }
    assert names[..|names|] == names;
  }

  lemma PickedMore(n: Node, names: seq<Bytes>, i: nat)
    requires i < |names|
    ensures Picked(n, names[..i + 1]) == Picked(n, names[..i]) + T.ListOf(names[i], Get(n, names[i]))
  {
    assert names[..i + 1] == names[..i] + [names[i]];
    PickedAppend(n, names[..i], names[i]);
  }

  lemma {:induction false} PickedAppend(n: Node, names: seq<Bytes>, last: Bytes)
    ensures Picked(n, names + [last]) == Picked(n, names) + T.ListOf(last, Get(n, last))
  {
    if names != [] {
      PickedAppend(n, names[1..], last);
      assert (names + [last])[1..] == names[1..] + [last];
    }
  }

  /** The stored directory is the overlay. */
  lemma StoredOverlay(current: Node, source: Node, ordered: seq<Bytes>, entries: seq<Entry>)
    requires current.Dir? && source.Dir? && ordered == T.Ordered(current.entries.Keys + source.entries.Keys)
    requires entries == Picked(Dir(OverlayEntries(current, source)), ordered) && IncreasingBy(NameOf, entries)
    ensures Dir(MapOf(entries)) == Dir(OverlayEntries(current, source))
  {
    var result := Dir(OverlayEntries(current, source));
    PickedMakes(result, current.entries.Keys + source.entries.Keys);
    IncreasingDistinctNames(entries);
    MapOfHas(entries);
    MakesUnique(entries, result, Dir(MapOf(entries)));
  }

  lemma StoredList(n: Node, entries: seq<Entry>)
    requires n.Dir? && entries == Picked(n, T.Ordered(n.entries.Keys)) && IncreasingBy(NameOf, entries)
    ensures Dir(MapOf(entries)) == n
  {
    PickedMakes(n, n.entries.Keys);
    IncreasingDistinctNames(entries);
    MapOfHas(entries);
    MakesUnique(entries, n, Dir(MapOf(entries)));
  }

  lemma SingleEntry(name: Bytes, child: Slot)
    ensures MapOf([Entry(name, child)]) == map[name := child]
  {
    assert [Entry(name, child)][..0] == [];
  }

  lemma StoredSlot(current: Slot, source: Slot, ordered: seq<Bytes>, entries: seq<Entry>, result: Slot)
    requires current.node.Dir? && source.node.Dir? && ordered == T.Ordered(UnionNames(current.node, source.node))
    requires entries == Picked(Dir(OverlayEntries(current.node, source.node)), ordered) && IncreasingBy(NameOf, entries)
    requires result == Slot(Dir(MapOf(entries)), T.Max(current.mtime, source.mtime))
    ensures result == Overlay(current, source)
  {
    StoredOverlay(current.node, source.node, ordered, entries);
  }

  lemma AddRemove<T>(s: set<T>, x: T)
    requires x !in s
    ensures s + {x} - {x} == s
  {
  }
}
