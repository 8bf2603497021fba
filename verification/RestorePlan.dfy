/** The restore plan as a whole, the record made from it, and the separate check of that record. */
module RestorePlan {
  import opened Wrappers
  import opened Bytes
  import opened Sorting
  import opened ConflictNames
  import opened Trees
  import T = TreeMerge
  import M = TreeMerger
  import opened MergeLaws
  import opened RestoreOverlay
  import opened RestorePlanner
  import opened RestoreAccounting
  import P = Paths
  import V = RestorePreview

  const MaxObjects: nat := 2000000
  const MaxDirectoryEntries: nat := 100000
  const MaxCommitBytes: nat := 65536
  const DefaultBudget: Budget := Budget(256, MaxObjects, MaxObjects, P.MaxPathBytes, MaxDirectoryEntries)

  datatype Plan = Plan(result: Node, created: nat, updated: nat, types: nat, removed: nat, preserved: nat,
                       paths: seq<Bytes>, changed: nat, truncated: bool)

  // ---- reporting ----

  function Joined(paths: set<Path>): set<Bytes> {
    set p | p in paths :: P.Join(p)
  }

  ghost predicate Names(rules: Rules) {
    forall name :: rules.validName(name) ==> name != [] && '/' !in name
  }

  ghost predicate ValidPaths(rules: Rules, budget: Budget, paths: set<Path>) {
    forall p :: p in paths ==> OkPath(rules, budget, p)
  }

  /** What a plan says about the books: the counts, and the first hundred changed paths in order. */
  ghost predicate Reports(plan: Plan, books: Books) {
    && plan.created == |books.created| && plan.updated == |books.updated| && plan.types == |books.types|
    && plan.removed == |books.removed| && plan.preserved == |books.preserved| && plan.changed == |books.changed|
    && plan.truncated == (plan.changed > V.PathLimit)
    && var all := T.Ordered(Joined(books.changed));
       plan.paths == if |all| > V.PathLimit then all[..V.PathLimit] else all
  }

  lemma JoinsDiffer(rules: Rules, budget: Budget, a: Path, b: Path)
    requires Names(rules) && OkPath(rules, budget, a) && OkPath(rules, budget, b) && P.Join(a) == P.Join(b)
    ensures a == b
  {
    P.SplitJoin(a);
    P.SplitJoin(b);
  }

  lemma {:induction false} JoinedSize(rules: Rules, budget: Budget, paths: set<Path>)
    requires Names(rules) && ValidPaths(rules, budget, paths)
    ensures |Joined(paths)| == |paths|
    decreases |paths|
  {
    if paths != {} {
      var p :| p in paths;
      JoinedSize(rules, budget, paths - {p});
      forall q | q in paths - {p}
        ensures P.Join(q) != P.Join(p)
      {
        if P.Join(q) == P.Join(p) {
          JoinsDiffer(rules, budget, p, q);
        }
      }
      assert Joined(paths) == Joined(paths - {p}) + {P.Join(p)};
    }
  }

  /** A path that passed the planner's check is a valid protocol path. */
  lemma OkPathValid(rules: Rules, budget: Budget, p: Path)
    requires Names(rules) && OkPath(rules, budget, p)
    ensures P.ValidPath(rules.validName, P.Join(p))
  {
    P.SplitJoin(p);
    assert p[0] in p;
    JoinLong(p);
  }

  lemma JoinLong(p: Path)
    requires p != [] && p[0] != []
    ensures P.Join(p) != []
  {
  }

  method JoinAll(paths: set<Path>) returns (joined: set<Bytes>)
    ensures joined == Joined(paths)
  {
    var left := paths;
    joined := {};
    while left != {}
      invariant left <= paths && joined == Joined(paths - left)
      decreases |left|
    {
      var p :| p in left;
      assert paths - (left - {p}) == (paths - left) + {p};
      left, joined := left - {p}, joined + {P.Join(p)};
    }
    assert paths - left == paths;
  }

  // ---- planning ----

  /** The parts of a source path; none for the root. */
  function PathParts(path: Bytes): Path {
    if path == "." then [] else P.Split(path)
  }

  /**
    Plans a restore. The result is the overlay, the report is exact, and the only way to report a
    missing source path is that the source has none.
   */
  method PlanRestore(rules: Rules, budget: Budget, current: Node, source: Node, sourcePath: Bytes)
    returns (r: Result<Plan, PlanError>, ghost books: Books)
    requires current.Dir? && source.Dir?
    ensures r.Ok? ==> Planned(rules, budget, current, source, PathParts(sourcePath), r.value, books)
    ensures r == Err(NotFound) ==> SlotAt(Some(Slot(source, 0)), PathParts(sourcePath)).None?
    ensures r.Ok? ==> P.ValidPath(rules.validName, sourcePath)
    ensures !P.ValidPath(rules.validName, sourcePath) ==> r == Err(InvalidPath)
  {
    books := NoBooks;
    var parts := PathParts(sourcePath);
    if !P.ValidPath(rules.validName, sourcePath) {
      return Err(InvalidPath), books;
    }
    var planner := new Planner(rules, budget);
    var ready := Prepare(planner, current, source, parts);
    if ready.Err? {
      return Err(ready.error), books;
    }
    FoundApplies(Some(Slot(current, 0)), Slot(source, 0), parts);
    var result := planner.ApplyPath(Some(Slot(current, 0)), Slot(source, 0), parts, [], true);
    if result.Err? {
      return Err(result.error), books;
    }
    books := planner.books;
    PlanBooksExact(Slot(current, 0), Slot(source, 0), parts, result.value, books);
    RecordedCounts(books, planner.validatedPaths);
    JoinedBooks(rules, budget, books, planner.validatedPaths);
    var plan := Report(planner, result.value.node);
    return Ok(plan), books;
  }

  /** A source that has the path can be laid over anything. */
  lemma {:induction false} FoundApplies(current: Option<Slot>, source: Slot, parts: Path)
    requires SlotAt(Some(source), parts).Some?
    ensures Apply(current, source, parts).Some?
    decreases |parts|
  {
    if parts != [] {
      var next := Get(source.node, parts[0]).value;
      if current.None? {
        FoundBuilds(source, parts);
      } else if current.value.node.Dir? {
        FoundApplies(Get(current.value.node, parts[0]), next, parts[1..]);
      }
    }
  }

  lemma {:induction false} FoundBuilds(source: Slot, parts: Path)
    requires parts != [] && SlotAt(Some(source), parts).Some?
    ensures BuildMissing(source, parts).Some?
    decreases |parts|
  {
    if |parts| > 1 {
      FoundBuilds(Get(source.node, parts[0]).value, parts[1..]);
    }
  }

  /** What is known of a finished plan. */
  ghost predicate Planned(rules: Rules, budget: Budget, current: Node, source: Node, parts: Path, plan: Plan, books: Books) {
    && current.Dir? && source.Dir?
    && SlotAt(Some(Slot(source, 0)), parts).Some?
    && Apply(Some(Slot(current, 0)), Slot(source, 0), parts) == Some(Slot(plan.result, 0))
    && books == ApplyBooks(NoBooks, Some(Slot(current, 0)), Slot(source, 0), parts, [], true)
    && Reports(plan, books) && ValidPaths(rules, budget, books.changed)
    && plan.removed <= budget.maxPaths && plan.preserved <= budget.maxPaths && plan.changed <= budget.maxPaths
  }

  method Prepare(planner: Planner, current: Node, source: Node, parts: Path) returns (r: Result<(), PlanError>)
    requires current.Dir? && source.Dir? && planner.Valid() && planner.Checked()
    modifies planner`validatedPaths, planner`directories, planner`files, planner`objectCount
    ensures planner.Valid() && planner.Checked()
    ensures r.Ok? ==> SlotAt(Some(Slot(source, 0)), parts).Some?
    ensures r == Err(NotFound) ==> parts != [] && SlotAt(Some(Slot(source, 0)), parts).None?
  {
    if parts != [] {
      var valid := planner.ValidateResultPath(parts);
      if valid.Err? {
        return valid;
      }
    }
    var loaded := planner.LoadBoth(current, source);
    if !loaded {
      return Err(BudgetExceeded);
    }
    r := planner.ResolvePath(source, parts);
  }

  lemma SubsetCount<T>(some: set<T>, all: set<T>)
    requires some <= all
    ensures |some| <= |all|
  {
    assert all == some + (all - some);
  }

  lemma RecordedCounts(books: Books, validated: set<Path>)
    requires Recorded(books) <= validated
    ensures |books.changed| <= |validated| && |books.removed| <= |validated| && |books.preserved| <= |validated|
  {
    SubsetCount(books.changed, validated);
    SubsetCount(books.removed, validated);
    SubsetCount(books.preserved, validated);
  }

  lemma JoinedBooks(rules: Rules, budget: Budget, books: Books, validated: set<Path>)
    requires Recorded(books) <= validated && ValidPaths(rules, budget, validated)
    ensures ValidPaths(rules, budget, books.changed)
  {
  }

  method Report(planner: Planner, result: Node) returns (plan: Plan)
    requires Partition(planner.books)
    ensures Reports(plan, planner.books) && plan.result == result
  {
    var books := planner.books;
    var joined := JoinAll(books.changed);
    var names := M.SortNames(joined);
    var paths := if |names| > V.PathLimit then names[..V.PathLimit] else names;
    return Plan(result, books.createdCount, books.updatedCount, |books.types|, |books.removed|, |books.preserved|,
                paths, |books.changed|, |books.changed| > V.PathLimit);
  }

  // ---- the record of a restore and its separate check ----

  datatype Kind = SyncPublication | RestorePublication

  /** A pending publication, as far as the check of a restore record reads it. */
  datatype Record = Record(kind: Kind, sourceCommit: Bytes, sourceRoot: Bytes, sourcePath: Bytes, candidateRoot: Bytes, capturedRoot: Bytes,
                           candidateData: Bytes, capturedData: Bytes, candidateHistory: Bytes, deletions: int, tracked: int,
                           requiresConfirmation: bool, deleteConfirmed: bool, legacy: bool, created: int, updated: int, types: int,
                           removed: int, preserved: int, preview: Bytes, changed: int, truncated: bool)

  datatype RecordError = BadKind | BadSource | BadCommit | SyncState | SameRoot | NoChange | BadStatistics | BadPreview

  predicate CommitSized(data: Bytes) {
    0 < |data| <= MaxCommitBytes
  }

  predicate NoSyncState(v: Record) {
    v.candidateHistory == [] && v.deletions == 0 && v.tracked == 0 && !v.requiresConfirmation && !v.deleteConfirmed && !v.legacy
  }

  predicate Counted(count: int) {
    0 <= count <= MaxObjects
  }

  /** What the check requires of the statistics alone. */
  predicate Consistent(v: Record) {
    && 0 < v.changed && v.changed == v.created + v.updated + v.types
    && Counted(v.created) && Counted(v.updated) && Counted(v.types) && Counted(v.removed) && Counted(v.preserved) && Counted(v.changed)
  }

  /** A preview of this many paths agrees with the number of changes. */
  predicate Agrees(v: Record, shown: nat) {
    if v.truncated then shown == V.PathLimit && v.changed > shown else v.changed == shown
  }

  /** Exactly the records the check accepts. */
  ghost predicate Acceptable(rules: Rules, v: Record) {
    && v.kind.RestorePublication? && ValidId(v.sourceCommit) && ValidId(v.sourceRoot) && P.ValidPath(rules.validName, v.sourcePath)
    && CommitSized(v.candidateData) && CommitSized(v.capturedData) && NoSyncState(v) && v.candidateRoot != v.capturedRoot
    && Consistent(v) && exists paths :: V.EncodesTo(rules.validName, paths, v.preview) && Agrees(v, |paths|)
  }

  method ValidateRestoreFields(rules: Rules, v: Record) returns (r: Result<(), RecordError>)
    requires Names(rules)
    ensures r.Ok? <==> Acceptable(rules, v)
    ensures r.Ok? <==>
              && v.kind.RestorePublication? && ValidId(v.sourceCommit) && ValidId(v.sourceRoot) && P.ValidPath(rules.validName, v.sourcePath)
              && 1 <= |v.candidateData| <= 65536 && 1 <= |v.capturedData| <= 65536 && v.candidateRoot != v.capturedRoot
              && v.candidateHistory == [] && v.deletions == v.tracked == 0 && !v.requiresConfirmation && !v.deleteConfirmed && !v.legacy
              && 0 <= v.created <= 2000000 && 0 <= v.updated <= 2000000 && 0 <= v.types <= 2000000
              && 0 <= v.removed <= 2000000 && 0 <= v.preserved <= 2000000 && v.changed <= 2000000
              && 0 < v.changed == v.created + v.updated + v.types
              && exists paths :: V.EncodesTo(rules.validName, paths, v.preview) && (if v.truncated then |paths| == 100 && v.changed > 100 else v.changed == |paths|)
  {
    if !v.kind.RestorePublication? {
      return Err(BadKind);
    }
    if !ValidId(v.sourceCommit) || !ValidId(v.sourceRoot) || !P.ValidPath(rules.validName, v.sourcePath) {
      return Err(BadSource);
    }
    if !CommitSized(v.candidateData) || !CommitSized(v.capturedData) {
      return Err(BadCommit);
    }
    if !NoSyncState(v) {
      return Err(SyncState);
    }
    if v.candidateRoot == v.capturedRoot {
      return Err(SameRoot);
    }
    if v.changed <= 0 {
      return Err(NoChange);
    }
    if !Consistent(v) {
      return Err(BadStatistics);
    }
    var paths := V.DecodeRestorePreview(rules.validName, v.preview);
    if paths.Err? {
      return Err(BadPreview);
    }
    OnePreview(rules, paths.value, v.preview);
    if v.changed < |paths.value| {
      return Err(BadStatistics);
    }
    return if Agrees(v, |paths.value|) then Ok(()) else Err(BadStatistics);
  }

  lemma OnePreview(rules: Rules, paths: seq<Bytes>, data: Bytes)
    requires Names(rules) && V.EncodesTo(rules.validName, paths, data)
    ensures forall other :: V.EncodesTo(rules.validName, other, data) ==> other == paths
  {
    forall other | V.EncodesTo(rules.validName, other, data)
      ensures other == paths
    {
      V.EncodingInjective(rules.validName, other, paths, data);
    }
  }

  // ---- every plan that changes the root is accepted ----

  lemma ShownPathValid(rules: Rules, budget: Budget, books: Books, shown: Bytes)
    requires Names(rules) && ValidPaths(rules, budget, books.changed) && shown in Joined(books.changed)
    ensures P.ValidPath(rules.validName, shown)
  {
    var p :| p in books.changed && P.Join(p) == shown;
    OkPathValid(rules, budget, p);
  }

  lemma ShownInOrder(plan: Plan, books: Books)
    requires Reports(plan, books)
    ensures Increasing(plan.paths) && |plan.paths| <= V.PathLimit
    ensures forall i :: 0 <= i < |plan.paths| ==> plan.paths[i] in Joined(books.changed)
  {
    var all := T.Ordered(Joined(books.changed));
    OrderedNames(Joined(books.changed));
    forall i, j | 0 <= i < j < |plan.paths|
      ensures Less(plan.paths[i], plan.paths[j])
    {
      assert Less(T.Itself(all[i]), T.Itself(all[j]));
    }
    forall i | 0 <= i < |plan.paths|
      ensures plan.paths[i] in Joined(books.changed)
    {
      assert plan.paths[i] == all[i] && all[i] in all;
    }
  }

  /** The paths a plan shows are valid and in strict order, so they can be encoded. */
  lemma ShownCanonical(rules: Rules, budget: Budget, plan: Plan, books: Books)
    requires Names(rules) && Reports(plan, books) && ValidPaths(rules, budget, books.changed)
    ensures V.Canonical(rules.validName, plan.paths)
  {
    ShownInOrder(plan, books);
    forall i | 0 <= i < |plan.paths|
      ensures P.ValidPath(rules.validName, plan.paths[i])
    {
      ShownPathValid(rules, budget, books, plan.paths[i]);
    }
  }

  lemma ShownCount(rules: Rules, budget: Budget, plan: Plan, books: Books)
    requires Names(rules) && Reports(plan, books) && ValidPaths(rules, budget, books.changed)
    ensures |plan.paths| == if plan.truncated then V.PathLimit else plan.changed
  {
    OrderedNames(Joined(books.changed));
    JoinedSize(rules, budget, books.changed);
  }

  /** The record that is made from a plan. */
  function RecordOf(plan: Plan, id: Node -> Bytes, captured: Node, source: Node, sourceCommit: Bytes, sourcePath: Bytes,
                    candidateData: Bytes, capturedData: Bytes, preview: Bytes): Record {
    Record(RestorePublication, sourceCommit, id(source), sourcePath, id(plan.result), id(captured), candidateData, capturedData, [], 0, 0,
           false, false, false, plan.created, plan.updated, plan.types, plan.removed, plan.preserved, preview, plan.changed, plan.truncated)
  }

  predicate IsNew(c: Option<Slot>, r: Option<Slot>) {
    c.None? && r.Some?
  }

  predicate IsChanged(c: Option<Slot>, r: Option<Slot>) {
    c.Some? && r.Some? && r != c && (c.value.node.Dir? <==> r.value.node.Dir?)
  }

  predicate IsRetyped(c: Option<Slot>, r: Option<Slot>) {
    c.Some? && r.Some? && (c.value.node.Dir? <==> r.value.node.File?)
  }

  /** The differences between Current and the result, path by path. */
  ghost predicate Differences(books: Books, current: Node, source: Node, result: Node, parts: Path) {
    && (forall p: Path :: p in books.created <==> p != [] && IsNew(Find(current, p), Find(result, p)))
    && (forall p: Path :: p in books.updated <==> p != [] && IsChanged(Find(current, p), Find(result, p)))
    && (forall p: Path :: p in books.types <==> p != [] && IsRetyped(Find(current, p), Find(result, p)))
    && (forall p: Path :: p in books.removed <==> p != [] && IsNew(Find(result, p), Find(current, p)))
    && (forall p: Path :: p in books.preserved <==> p != [] && parts <= p && IsNew(Find(source, p), Find(current, p)) && Find(result, p).Some?)
    && (forall p: Path :: p in books.changed <==> p in books.created || p in books.updated || p in books.types)
  }

  /** The record counts them, each kind in its own field. */
  ghost predicate CountsDifferences(v: Record, books: Books, current: Node, source: Node, result: Node, parts: Path) {
    && v.created == |books.created| && v.updated == |books.updated| && v.types == |books.types|
    && v.removed == |books.removed| && v.preserved == |books.preserved| && v.changed == |books.changed|
    && Differences(books, current, source, result, parts) && v.truncated == (v.changed > 100)
  }

  lemma BookSays(books: Books, current: Node, source: Node, result: Node, parts: Path, b: Book, p: Path)
    requires Exact(books, current, source, result, parts)
    ensures p in In(books, b) <==> p != [] && (b == Preserved ==> parts <= p) && Belongs(b, Find(current, p), Find(source, p), Find(result, p))
  {
  }

  lemma ExactDiffers(books: Books, current: Node, source: Node, result: Node, parts: Path)
    requires Exact(books, current, source, result, parts) && Partition(books)
    ensures Differences(books, current, source, result, parts)
  {
    forall p: Path
      ensures p in books.created <==> p != [] && IsNew(Find(current, p), Find(result, p))
    {
      BookSays(books, current, source, result, parts, Created, p);
    }
    forall p: Path
      ensures p in books.updated <==> p != [] && IsChanged(Find(current, p), Find(result, p))
    {
      BookSays(books, current, source, result, parts, Updated, p);
    }
    forall p: Path
      ensures p in books.types <==> p != [] && IsRetyped(Find(current, p), Find(result, p))
    {
      BookSays(books, current, source, result, parts, Types, p);
    }
    forall p: Path
      ensures p in books.removed <==> p != [] && IsNew(Find(result, p), Find(current, p))
    {
      BookSays(books, current, source, result, parts, Removed, p);
    }
    forall p: Path
      ensures p in books.preserved <==> p != [] && parts <= p && IsNew(Find(source, p), Find(current, p)) && Find(result, p).Some?
    {
      BookSays(books, current, source, result, parts, Preserved, p);
    }
  }

  /** Where the record comes from, and what it is for. */
  predicate Describes(v: Record, id: Node -> Bytes, current: Node, source: Node, result: Node, sourceCommit: Bytes, sourcePath: Bytes,
                      candidateData: Bytes, capturedData: Bytes) {
    && v.kind.RestorePublication? && v.sourceCommit == sourceCommit && v.sourceRoot == id(source) && v.sourcePath == sourcePath
    && v.candidateRoot == id(result) && v.capturedRoot == id(current) && v.candidateData == candidateData && v.capturedData == capturedData
    && v.candidateHistory == [] && v.deletions == v.tracked == 0 && !v.requiresConfirmation && !v.deleteConfirmed && !v.legacy
  }

  lemma PlanCounts(rules: Rules, current: Node, source: Node, plan: Plan, books: Books, v: Record, parts: Path)
    requires Planned(rules, DefaultBudget, current, source, parts, plan, books)
    requires v.created == plan.created && v.updated == plan.updated && v.types == plan.types && v.removed == plan.removed
    requires v.preserved == plan.preserved && v.changed == plan.changed && v.truncated == plan.truncated
    ensures CountsDifferences(v, books, current, source, plan.result, parts)
  {
    PlanBooksExact(Slot(current, 0), Slot(source, 0), parts, Slot(plan.result, 0), books);
    ExactDiffers(books, current, source, plan.result, parts);
  }

  /** A plan under the default budget whose root changed makes a record that the check accepts. */
  lemma PlanAccepted(rules: Rules, current: Node, source: Node, plan: Plan, books: Books, v: Record, parts: Path)
    requires Names(rules) && Planned(rules, DefaultBudget, current, source, parts, plan, books) && plan.result != current
    requires v.created == plan.created && v.updated == plan.updated && v.types == plan.types && v.removed == plan.removed
    requires v.preserved == plan.preserved && v.changed == plan.changed && v.truncated == plan.truncated
    requires V.EncodesTo(rules.validName, plan.paths, v.preview)
    ensures Consistent(v) && Agrees(v, |plan.paths|)
  {
    var c, s, r := Slot(current, 0), Slot(source, 0), Slot(plan.result, 0);
    PlanBooksExact(c, s, parts, r, books);
    if books.changed == {} {
      UnchangedPlan(c, s, parts, r, books);
    }
    ShownCount(rules, DefaultBudget, plan, books);
  }

  /** The record of a plan, with its preview. */
  method MakeRecord(rules: Rules, id: Node -> Bytes, current: Node, source: Node, plan: Plan, sourceCommit: Bytes, sourcePath: Bytes,
                    candidateData: Bytes, capturedData: Bytes, ghost books: Books) returns (record: Record)
    requires Names(rules) && Planned(rules, DefaultBudget, current, source, PathParts(sourcePath), plan, books) && plan.result != current
    ensures V.EncodesTo(rules.validName, plan.paths, record.preview)
    ensures record == RecordOf(plan, id, current, source, sourceCommit, sourcePath, candidateData, capturedData, record.preview)
    ensures Consistent(record) && Agrees(record, |plan.paths|)
    ensures CountsDifferences(record, books, current, source, plan.result, PathParts(sourcePath))
  {
    ShownCanonical(rules, DefaultBudget, plan, books);
    V.IncreasingSorted(plan.paths);
    var preview := V.EncodeRestorePreview(rules.validName, plan.paths);
    record := RecordOf(plan, id, current, source, sourceCommit, sourcePath, candidateData, capturedData, preview.value);
    PlanAccepted(rules, current, source, plan, books, record, PathParts(sourcePath));
    PlanCounts(rules, current, source, plan, books, record, PathParts(sourcePath));
  }

  /**
    Planning a restore and saving its record: nothing to do when the root stays the same, otherwise
    a record that the separate check accepts.
   */
  method PrepareRestore(rules: Rules, id: Node -> Bytes, current: Node, source: Node, sourceCommit: Bytes, sourcePath: Bytes,
                        candidateData: Bytes, capturedData: Bytes) returns (r: Result<Option<Record>, PlanError>, ghost plan: Plan, ghost books: Books)
    requires Names(rules) && current.Dir? && source.Dir? && ValidId(sourceCommit) && CommitSized(candidateData) && CommitSized(capturedData)
    requires ValidId(id(source)) && forall n :: id(n) == id(current) ==> n == current
    ensures r.Ok? ==> Planned(rules, DefaultBudget, current, source, PathParts(sourcePath), plan, books) && (r.value.None? <==> plan.result == current)
    ensures r.Ok? && r.value.Some? ==> Acceptable(rules, r.value.value)
    ensures r == Err(NotFound) ==> SlotAt(Some(Slot(source, 0)), PathParts(sourcePath)).None?
    ensures !P.ValidPath(rules.validName, sourcePath) ==> r == Err(InvalidPath)
    ensures r.Ok? && r.value.Some? ==>
              r.value.value == RecordOf(plan, id, current, source, sourceCommit, sourcePath, candidateData, capturedData, r.value.value.preview)
    ensures r.Ok? && r.value.Some? ==>
              Describes(r.value.value, id, current, source, plan.result, sourceCommit, sourcePath, candidateData, capturedData) &&
              CountsDifferences(r.value.value, books, current, source, plan.result, PathParts(sourcePath))
  {
    plan := Plan(current, 0, 0, 0, 0, 0, [], 0, false);
    var planned;
    planned, books := PlanRestore(rules, DefaultBudget, current, source, sourcePath);
    if planned.Err? {
      return Err(planned.error), plan, books;
    }
    plan := planned.value;
    if id(planned.value.result) == id(current) {
      return Ok(None), plan, books;
    }
    var record := MakeRecord(rules, id, current, source, planned.value, sourceCommit, sourcePath, candidateData, capturedData, books);
    var checked := ValidateRestoreFields(rules, record);
    assert checked.Ok?;
    return Ok(Some(record)), plan, books;
  }
}
