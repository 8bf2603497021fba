/** Why the restore planner's books are exact: what each step records is what belongs there. */
module RestoreAccounting {
  import opened Wrappers
  import opened Bytes
  import opened Sorting
  import opened Trees
  import T = TreeMerge
  import opened MergeLaws
  import opened RestoreOverlay
  import opened RestorePlanner

  // ---- where a path belongs ----

  datatype Book = Changed | Types | Removed | Preserved | Created | Updated

  function In(books: Books, b: Book): set<Path> {
    match b
    case Changed => books.changed
    case Types => books.types
    case Removed => books.removed
    case Preserved => books.preserved
    case Created => books.created
    case Updated => books.updated
  }

  /** Where a path belongs, by the entries that Current, the source and the result have there. */
  predicate Belongs(b: Book, c: Option<Slot>, s: Option<Slot>, r: Option<Slot>) {
    match b
    case Changed => r.Some? && r != c
    case Types => c.Some? && r.Some? && !SameKind(c.value, r.value)
    case Removed => c.Some? && r.None?
    case Preserved => c.Some? && r.Some? && s.None?
    case Created => c.None? && r.Some?
    case Updated => c.Some? && r.Some? && SameKind(c.value, r.value) && r != c
  }

  /** Three slots at the same place. */
  datatype Place = Place(c: Option<Slot>, s: Option<Slot>, r: Option<Slot>)

  function Below(at: Place, rest: Path): Place {
    Place(SlotAt(at.c, rest), SlotAt(at.s, rest), SlotAt(at.r, rest))
  }

  predicate BelongsAt(b: Book, at: Place) {
    Belongs(b, at.c, at.s, at.r)
  }

  /**
    The books grew by exactly what belongs below `path`. What counts as preserved is only looked
    for below `parts`; the root itself is not recorded.
   */
  ghost predicate Accounted(before: Books, after: Books, path: Path, at: Place, parts: Path, root: bool) {
    forall b: Book, p: Path :: p in In(after, b) <==> p in In(before, b) || Due(b, p, path, at, parts, root)
  }

  ghost predicate Due(b: Book, p: Path, path: Path, at: Place, parts: Path, root: bool) {
    && path <= p && !(root && p == path)
    && (b == Preserved ==> parts <= p[|path|..])
    && BelongsAt(b, Below(at, p[|path|..]))
  }

  /** The same for some entries of a directory. */
  ghost predicate AccountedNames(before: Books, after: Books, path: Path, at: Place, names: set<Bytes>) {
    forall b: Book, p: Path :: p in In(after, b) <==> p in In(before, b) || DueIn(b, p, path, at, names)
  }

  ghost predicate DueIn(b: Book, p: Path, path: Path, at: Place, names: set<Bytes>) {
    && path < p && p[|path|] in names && BelongsAt(b, Below(at, p[|path|..]))
  }

  predicate Touches(visit: Visit, b: Book) {
    match visit
    case VisitCreated => b == Changed || b == Created
    case VisitRemoved => b == Removed
    case VisitPreserved => b == Preserved
  }

  /** Every path of the subtree was visited. */
  ghost predicate Walked(visit: Visit, before: Books, after: Books, path: Path, slot: Slot) {
    forall b: Book, p: Path :: p in In(after, b) <==> p in In(before, b) || WalkDue(visit, b, p, path, slot)
  }

  ghost predicate WalkDue(visit: Visit, b: Book, p: Path, path: Path, slot: Slot) {
    Touches(visit, b) && path <= p && SlotAt(Some(slot), p[|path|..]).Some?
  }

  /** Every path below some entries was visited. */
  ghost predicate WalkedNames(visit: Visit, before: Books, after: Books, path: Path, n: Node, names: set<Bytes>) {
    forall b: Book, p: Path :: p in In(after, b) <==> p in In(before, b) || WalkDueIn(visit, b, p, path, n, names)
  }

  ghost predicate WalkDueIn(visit: Visit, b: Book, p: Path, path: Path, n: Node, names: set<Bytes>) {
    Touches(visit, b) && path < p && p[|path|] in names && Find(n, p[|path|..]).Some?
  }

  lemma ChildOf(path: Path, name: Bytes, p: Path)
    ensures path + [name] <= p <==> path < p && p[|path|] == name
    ensures path + [name] <= p ==> p[|path|..] == [name] + p[|path| + 1..] && p[|path + [name]|..] == p[|path| + 1..]
  {
    if path < p && p[|path|] == name {
      assert p[..|path| + 1] == path + [name];
    }
    if path + [name] <= p {
      assert p[..|path|] == (path + [name])[..|path|] && p[|path|] == (path + [name])[|path|];
    }
  }

  lemma FindBelow(n: Node, path: Path, name: Bytes, p: Path)
    requires path + [name] <= p
    ensures Find(n, p[|path|..]) == SlotAt(Get(n, name), p[|path + [name]|..])
  {
    ChildOf(path, name, p);
  }

  lemma WalkedMore(visit: Visit, before: Books, middle: Books, after: Books, path: Path, n: Node, names: set<Bytes>, name: Bytes)
    requires WalkedNames(visit, before, middle, path, n, names) && Get(n, name).Some?
    requires Walked(visit, middle, after, path + [name], Get(n, name).value)
    ensures WalkedNames(visit, before, after, path, n, names + {name})
  {
    forall b: Book, p: Path
      ensures WalkDueIn(visit, b, p, path, n, names + {name}) <==>
                WalkDueIn(visit, b, p, path, n, names) || WalkDue(visit, b, p, path + [name], Get(n, name).value)
    {
      ChildOf(path, name, p);
      if path + [name] <= p {
        FindBelow(n, path, name, p);
      }
    }
  }

  /** A subtree is its own path and what is below its entries. */
  lemma WalkedWhole(visit: Visit, before: Books, after: Books, path: Path, slot: Slot)
    requires slot.node.File? ==> after == Visited(visit, before, path)
    requires slot.node.Dir? ==> WalkedNames(visit, Visited(visit, before, path), after, path, slot.node, slot.node.entries.Keys)
    ensures Walked(visit, before, after, path, slot)
  {
    forall b: Book, p: Path
      ensures WalkDue(visit, b, p, path, slot) <==>
                (Touches(visit, b) && p == path) || (slot.node.Dir? && WalkDueIn(visit, b, p, path, slot.node, slot.node.entries.Keys))
    {
      if path < p {
        assert p[|path|..][0] == p[|path|];
      } else if p == path {
        assert p[|path|..] == [];
      }
    }
  }

  /** Nothing is recorded as changed at the path or below it. */
  ghost predicate Untouched(books: Books, path: Path) {
    forall p :: p in books.changed ==> !(path <= p)
  }

  ghost predicate UntouchedBelow(books: Books, path: Path) {
    forall p :: p in books.changed ==> !(path < p)
  }

  ghost function NamesTo(names: seq<Bytes>, i: nat): set<Bytes>
    requires i <= |names|
  {
    set name | name in names[..i]
  }

  lemma NamesToMore(names: seq<Bytes>, i: nat)
    requires i < |names|
    ensures NamesTo(names, i + 1) == NamesTo(names, i) + {names[i]}
  {
    assert names[..i + 1] == names[..i] + [names[i]];
  }

  lemma NamesToAll(names: seq<Bytes>, all: set<Bytes>)
    requires forall name :: name in names <==> name in all
    ensures NamesTo(names, |names|) == all
  {
    assert names[..|names|] == names;
  }

  lemma StillFresh(visit: Visit, before: Books, now: Books, path: Path, n: Node, names: seq<Bytes>, i: nat)
    requires i < |names| && NoDuplicates(names)
    requires visit == VisitCreated ==> UntouchedBelow(before, path)
    requires WalkedNames(visit, before, now, path, n, NamesTo(names, i))
    ensures visit == VisitCreated ==> Untouched(now, path + [names[i]])
  {
    if visit == VisitCreated {
      forall p | p in now.changed
        ensures !(path + [names[i]] <= p)
      {
        ChildOf(path, names[i], p);
        assert p in In(now, Changed);
        assert p in In(before, Changed) || WalkDueIn(visit, Changed, p, path, n, NamesTo(names, i));
      }
    }
  }

  // ---- why the books are right ----

  /** A node's descendants were visited, not the node itself. */
  ghost predicate WalkedDescendants(visit: Visit, before: Books, after: Books, path: Path, slot: Slot) {
    if slot.node.File? then after == before else WalkedNames(visit, before, after, path, slot.node, slot.node.entries.Keys)
  }

  lemma RemovedStaysFresh(before: Books, after: Books, path: Path, slot: Slot)
    requires WalkedDescendants(VisitRemoved, before, after, path, slot) && Untouched(before, path)
    ensures Untouched(after, path)
  {
    forall p | p in after.changed
      ensures !(path <= p)
    {
      assert p in In(after, Changed) ==> p in In(before, Changed);
    }
  }

  lemma CreatedKeepsPath(before: Books, middle: Books, after: Books, path: Path, current: Slot, source: Slot)
    requires WalkedDescendants(VisitCreated, middle, after, path, source) && Untouched(middle, path)
    ensures path !in after.changed
  {
    assert path in In(after, Changed) ==> path in In(middle, Changed);
  }

  /** A created subtree. */
  lemma CreatedAccounts(before: Books, after: Books, path: Path, source: Slot)
    requires Walked(VisitCreated, before, after, path, source)
    ensures Accounted(before, after, path, Place(None, Some(source), Some(source)), [], false)
  {
    var at := Place(None, Some(source), Some(source));
    forall b: Book, p: Path
      ensures Due(b, p, path, at, [], false) <==> WalkDue(VisitCreated, b, p, path, source)
    {
    }
  }

  /** A kept subtree. */
  lemma PreservedAccounts(before: Books, after: Books, path: Path, current: Slot)
    requires Walked(VisitPreserved, before, after, path, current)
    ensures Accounted(before, after, path, Place(Some(current), None, Some(current)), [], false)
  {
    var at := Place(Some(current), None, Some(current));
    forall b: Book, p: Path
      ensures Due(b, p, path, at, [], false) <==> WalkDue(VisitPreserved, b, p, path, current)
    {
    }
  }

  /** A file at the path of another kind: its own record and both sets of descendants. */
  lemma ReplacedAccounts(before: Books, middle: Books, later: Books, path: Path, current: Slot, source: Slot)
    requires !SameKind(current, source)
    requires WalkedDescendants(VisitRemoved, before, middle, path, current) && WalkedDescendants(VisitCreated, middle, later, path, source)
    ensures Accounted(before, Replaces(later, path), path, Place(Some(current), Some(source), Some(source)), [], false)
  {
    var at := Place(Some(current), Some(source), Some(source));
    forall b: Book, p: Path
      ensures p in In(Replaces(later, path), b) <==> p in In(before, b) || Due(b, p, path, at, [], false)
    {
      if path < p {
        assert p[|path|..][0] == p[|path|];
        ReplacedBelow(before, middle, later, path, current, source, b, p);
      } else if p == path {
        assert p[|path|..] == [];
      }
    }
  }

  lemma ReplacedBelow(before: Books, middle: Books, later: Books, path: Path, current: Slot, source: Slot, b: Book, p: Path)
    requires !SameKind(current, source) && path < p
    requires WalkedDescendants(VisitRemoved, before, middle, path, current) && WalkedDescendants(VisitCreated, middle, later, path, source)
    ensures p in In(later, b) <==> p in In(before, b) || Due(b, p, path, Place(Some(current), Some(source), Some(source)), [], false)
  {
    var rest := p[|path|..];
    assert rest[0] == p[|path|];
    if current.node.File? {
      assert p in In(later, b) <==> p in In(middle, b) || WalkDueIn(VisitCreated, b, p, path, source.node, source.node.entries.Keys);
    } else {
      assert p in In(middle, b) <==> p in In(before, b) || WalkDueIn(VisitRemoved, b, p, path, current.node, current.node.entries.Keys);
    }
  }

  lemma FilesAccount(before: Books, path: Path, current: Slot, source: Slot)
    requires current.node.File? && source.node.File?
    ensures var at := Place(Some(current), Some(source), Some(source));
            Accounted(before, if current == source then before else Updates(before, path), path, at, [], false)
  {
    var at := Place(Some(current), Some(source), Some(source));
    var after := if current == source then before else Updates(before, path);
    forall b: Book, p: Path
      ensures p in In(after, b) <==> p in In(before, b) || Due(b, p, path, at, [], false)
    {
      if p == path {
        assert p[|path|..] == [];
      }
    }
  }

  lemma PlaceBelow(at: Place, path: Path, name: Bytes, p: Path)
    requires path + [name] <= p && at.c.Some? && at.s.Some? && at.r.Some?
    ensures Below(at, p[|path|..]) ==
              Below(Place(Get(at.c.value.node, name), Get(at.s.value.node, name), Get(at.r.value.node, name)), p[|path + [name]|..])
  {
    FindBelow(at.c.value.node, path, name, p);
    FindBelow(at.s.value.node, path, name, p);
    FindBelow(at.r.value.node, path, name, p);
    ChildOf(path, name, p);
  }

  lemma AccountedMore(before: Books, middle: Books, after: Books, path: Path, at: Place, names: set<Bytes>, name: Bytes)
    requires at.c.Some? && at.s.Some? && at.r.Some? && AccountedNames(before, middle, path, at, names)
    requires Accounted(middle, after, path + [name], Place(Get(at.c.value.node, name), Get(at.s.value.node, name), Get(at.r.value.node, name)), [], false)
    ensures AccountedNames(before, after, path, at, names + {name})
  {
    var child := Place(Get(at.c.value.node, name), Get(at.s.value.node, name), Get(at.r.value.node, name));
    forall b: Book, p: Path
      ensures DueIn(b, p, path, at, names + {name}) <==> DueIn(b, p, path, at, names) || Due(b, p, path + [name], child, [], false)
    {
      ChildOf(path, name, p);
      if path + [name] <= p {
        PlaceBelow(at, path, name, p);
      }
    }
  }

  lemma NameStaysFresh(before: Books, now: Books, path: Path, at: Place, names: seq<Bytes>, i: nat)
    requires i < |names| && NoDuplicates(names) && Untouched(before, path)
    requires AccountedNames(before, now, path, at, NamesTo(names, i))
    ensures Untouched(now, path + [names[i]])
  {
    forall p | p in now.changed
      ensures !(path + [names[i]] <= p)
    {
      ChildOf(path, names[i], p);
      assert p in In(now, Changed);
      assert p in In(before, Changed) || DueIn(Changed, p, path, at, NamesTo(names, i));
    }
  }

  lemma PathStaysOpen(before: Books, now: Books, path: Path, at: Place, names: set<Bytes>)
    requires AccountedNames(before, now, path, at, names) && Untouched(before, path)
    ensures path !in now.changed
  {
    assert path in In(now, Changed) ==> path in In(before, Changed) || DueIn(Changed, path, path, at, names);
  }

  /** A merged directory: its entries, and its own record when it differs. */
  lemma DirectoryAccounts(before: Books, middle: Books, path: Path, current: Slot, source: Slot, root: bool)
    requires current.node.Dir? && source.node.Dir?
    requires var at := Place(Some(current), Some(source), Some(Overlay(current, source)));
             AccountedNames(before, middle, path, at, current.node.entries.Keys + source.node.entries.Keys)
    ensures var at := Place(Some(current), Some(source), Some(Overlay(current, source)));
            var result := Overlay(current, source);
            Accounted(before, if !root && result != current then Updates(middle, path) else middle, path, at, [], root)
  {
    var result := Overlay(current, source);
    var at := Place(Some(current), Some(source), Some(result));
    var names := current.node.entries.Keys + source.node.entries.Keys;
    var after := if !root && result != current then Updates(middle, path) else middle;
    forall b: Book, p: Path
      ensures p in In(after, b) <==> p in In(before, b) || Due(b, p, path, at, [], root)
    {
      assert p in In(middle, b) <==> p in In(before, b) || DueIn(b, p, path, at, names);
      if path < p {
        assert p[|path|..][0] == p[|path|];
        OutsideNames(current, source, p[|path|..], names, b);
      } else if p == path {
        assert p[|path|..] == [];
      }
    }
  }

  /** Below names of neither directory there is nothing to record. */
  lemma OutsideNames(current: Slot, source: Slot, rest: Path, names: set<Bytes>, b: Book)
    requires current.node.Dir? && source.node.Dir? && rest != [] && names == current.node.entries.Keys + source.node.entries.Keys
    ensures rest[0] !in names ==> !BelongsAt(b, Below(Place(Some(current), Some(source), Some(Overlay(current, source))), rest))
  {
    OverlayNames(current.node, source.node, rest[0]);
  }

  // ---- what whole calls record ----

  lemma OrderedDistinct(names: set<Bytes>)
    ensures NoDuplicates(T.Ordered(names)) && NamesTo(T.Ordered(names), |T.Ordered(names)|) == names
  {
    OrderedNames(names);
    NamesToAll(T.Ordered(names), names);
  }

  /** Walking a subtree visits each of its paths. */
  lemma {:induction false} WalkVisitsAll(visit: Visit, before: Books, path: Path, slot: Slot)
    requires visit == VisitCreated ==> Untouched(before, path)
    ensures Walked(visit, before, Walk(visit, before, path, slot), path, slot)
    decreases slot.node, 2
  {
    if slot.node.Dir? {
      WalkEntriesVisit(visit, Visited(visit, before, path), path, slot.node);
    }
    WalkedWhole(visit, before, Walk(visit, before, path, slot), path, slot);
  }

  lemma {:induction false} WalkEntriesVisit(visit: Visit, before: Books, path: Path, n: Node)
    requires n.Dir? && (visit == VisitCreated ==> UntouchedBelow(before, path))
    ensures WalkedNames(visit, before, WalkNames(visit, before, path, n, T.Ordered(n.entries.Keys)), path, n, n.entries.Keys)
    decreases n, 1
  {
    var names := T.Ordered(n.entries.Keys);
    OrderedDistinct(n.entries.Keys);
    assert names[0..] == names && NamesTo(names, 0) == {};
    WalkNamesVisit(visit, before, before, path, n, names, 0);
  }

  lemma {:induction false} WalkNamesVisit(visit: Visit, before: Books, now: Books, path: Path, n: Node, names: seq<Bytes>, i: nat)
    requires n.Dir? && i <= |names| && NoDuplicates(names) && (forall name :: name in names ==> name in n.entries)
    requires visit == VisitCreated ==> UntouchedBelow(before, path)
    requires WalkedNames(visit, before, now, path, n, NamesTo(names, i))
    ensures WalkedNames(visit, before, WalkNames(visit, now, path, n, names[i..]), path, n, NamesTo(names, |names|))
    decreases n, 0, |names| - i
  {
    if i < |names| {
      var child := n.entries[names[i]];
      var next := Walk(visit, now, path + [names[i]], child);
      StillFresh(visit, before, now, path, n, names, i);
      WalkVisitsAll(visit, now, path + [names[i]], child);
      WalkedMore(visit, before, now, next, path, n, NamesTo(names, i), names[i]);
      NamesToMore(names, i);
      WalkNamesStep(visit, now, path, n, names, i);
      WalkNamesVisit(visit, before, next, path, n, names, i + 1);
    }
  }

  lemma WalkBelowVisits(visit: Visit, before: Books, path: Path, slot: Slot)
    requires visit == VisitCreated ==> UntouchedBelow(before, path)
    ensures WalkedDescendants(visit, before, WalkBelow(visit, before, path, slot), path, slot)
  {
    if slot.node.Dir? {
      WalkEntriesVisit(visit, before, path, slot.node);
    }
  }

  /** Another kind at the same path. */
  lemma ReplaceAccounts(before: Books, path: Path, current: Slot, source: Slot)
    requires Untouched(before, path) && !SameKind(current, source)
    ensures Accounted(before, Replace(before, path, current, source), path, Place(Some(current), Some(source), Some(source)), [], false)
  {
    var middle := WalkBelow(VisitRemoved, before, path, current);
    WalkBelowVisits(VisitRemoved, before, path, current);
    RemovedStaysFresh(before, middle, path, current);
    var later := WalkBelow(VisitCreated, middle, path, source);
    WalkBelowVisits(VisitCreated, middle, path, source);
    CreatedKeepsPath(before, middle, later, path, current, source);
    ReplacedAccounts(before, middle, later, path, current, source);
  }

  ghost function PlaceOf(current: Option<Slot>, source: Slot): Place {
    Place(current, Some(source), Some(Merged(current, source)))
  }

  /** Laying a source node over a path records exactly what belongs there and below. */
  lemma {:induction false} MergeAccounts(before: Books, current: Option<Slot>, source: Slot, path: Path, root: bool)
    requires Untouched(before, path) && (root ==> current.Some? && current.value.node.Dir? && source.node.Dir?)
    ensures Accounted(before, Merge(before, current, source, path, root), path, PlaceOf(current, source), [], root)
    decreases source.node, 2
  {
    if current.None? {
      WalkVisitsAll(VisitCreated, before, path, source);
      CreatedAccounts(before, Merge(before, current, source, path, root), path, source);
    } else if !SameKind(current.value, source) {
      ReplaceAccounts(before, path, current.value, source);
    } else if source.node.File? {
      FilesAccount(before, path, current.value, source);
    } else {
      MergeDirsAccount(before, current.value, source, path, root);
    }
  }

  lemma {:induction false} MergeDirsAccount(before: Books, current: Slot, source: Slot, path: Path, root: bool)
    requires Untouched(before, path) && current.node.Dir? && source.node.Dir?
    ensures Accounted(before, MergeDirs(before, current, source, path, root), path, PlaceOf(Some(current), source), [], root)
    decreases source.node, 1
  {
    var all := UnionNames(current.node, source.node);
    var names, at := T.Ordered(all), PlaceOf(Some(current), source);
    OrderedDistinct(all);
    assert names[0..] == names && NamesTo(names, 0) == {};
    MergeNamesAccount(before, before, current, source, path, names, 0);
    var middle := MergeNames(before, current.node, source.node, path, names);
    PathStaysOpen(before, middle, path, at, all);
    DirectoryAccounts(before, middle, path, current, source, root);
  }

  lemma {:induction false} MergeNamesAccount(before: Books, now: Books, current: Slot, source: Slot, path: Path, names: seq<Bytes>, i: nat)
    requires Untouched(before, path) && current.node.Dir? && source.node.Dir? && i <= |names| && NoDuplicates(names)
    requires forall name :: name in names ==> name in UnionNames(current.node, source.node)
    requires AccountedNames(before, now, path, PlaceOf(Some(current), source), NamesTo(names, i))
    ensures AccountedNames(before, MergeNames(now, current.node, source.node, path, names[i..]), path, PlaceOf(Some(current), source),
                           NamesTo(names, |names|))
    decreases source.node, 0, |names| - i
  {
    if i < |names| {
      var at, name := PlaceOf(Some(current), source), names[i];
      var next := MergeName(now, current.node, source.node, path, name);
      NameStaysFresh(before, now, path, at, names, i);
      MergeNameAccounts(now, current, source, path, name);
      AccountedMore(before, now, next, path, at, NamesTo(names, i), name);
      NamesToMore(names, i);
      MergeNamesStep(now, current.node, source.node, path, names, i);
      MergeNamesAccount(before, next, current, source, path, names, i + 1);
    }
  }

  lemma {:induction false} MergeNameAccounts(now: Books, current: Slot, source: Slot, path: Path, name: Bytes)
    requires Untouched(now, path + [name]) && current.node.Dir? && source.node.Dir? && name in UnionNames(current.node, source.node)
    ensures var c, s := Get(current.node, name), Get(source.node, name);
            var r := Get(Overlay(current, source).node, name);
            Accounted(now, MergeName(now, current.node, source.node, path, name), path + [name], Place(c, s, r), [], false)
    decreases source.node, 0, 0
  {
    OverlayNames(current.node, source.node, name);
    if name in source.node.entries {
      MergeAccounts(now, Get(current.node, name), source.node.entries[name], path + [name], false);
    } else {
      WalkVisitsAll(VisitPreserved, now, path + [name], current.node.entries[name]);
      PreservedAccounts(now, Walk(VisitPreserved, now, path + [name], current.node.entries[name]), path + [name], current.node.entries[name]);
    }
  }

  // ---- the way down to the restored path ----

  /** One entry of a directory was accounted for, no other path below it has anything due, and then the directory itself is. */
  lemma StepAccounts(before: Books, inner: Books, after: Books, path: Path, at: Place, child: Place, parts: Path, root: bool)
    requires parts != [] && Accounted(before, inner, path + [parts[0]], child, parts[1..], false)
    requires forall rest: Path :: rest != [] && rest[0] == parts[0] ==> Below(at, rest) == Below(child, rest[1..])
    requires forall b: Book, rest: Path :: rest != [] && rest[0] != parts[0] && BelongsAt(b, Below(at, rest)) ==> b == Preserved
    requires forall b: Book, p: Path :: p in In(after, b) <==> p in In(inner, b) || (p == path && !root && b != Preserved && BelongsAt(b, at))
    ensures Accounted(before, after, path, at, parts, root)
  {
    forall b: Book, p: Path
      ensures Due(b, p, path, at, parts, root) <==>
                Due(b, p, path + [parts[0]], child, parts[1..], false) || (p == path && !root && b != Preserved && BelongsAt(b, at))
    {
      ChildOf(path, parts[0], p);
      if path < p {
        var rest := p[|path|..];
        assert rest[0] == p[|path|] && rest[1..] == p[|path| + 1..];
        PrefixStep(parts, rest);
      } else if p == path {
        assert p[|path|..] == [];
      }
    }
  }

  lemma ParentStaysOpen(before: Books, inner: Books, path: Path, name: Bytes, child: Place, parts: Path)
    requires Untouched(before, path) && Accounted(before, inner, path + [name], child, parts, false)
    ensures path !in inner.changed
  {
    assert path in In(inner, Changed) <==> path in In(before, Changed) || Due(Changed, path, path + [name], child, parts, false);
  }

  lemma PrefixStep(parts: Path, rest: Path)
    requires parts != [] && rest != []
    ensures parts <= rest <==> parts[0] == rest[0] && parts[1..] <= rest[1..]
  {
    assert parts == [parts[0]] + parts[1..] && rest == [rest[0]] + rest[1..];
  }

  /** The same books for a shorter path that holds nothing to preserve. */
  lemma NothingPreserved(before: Books, after: Books, path: Path, at: Place, parts: Path, root: bool)
    requires Accounted(before, after, path, at, [], root)
    requires forall rest: Path :: SlotAt(at.c, rest).Some? && SlotAt(at.r, rest).Some? ==> SlotAt(at.s, rest).Some?
    ensures Accounted(before, after, path, at, parts, root)
  {
    forall b: Book, p: Path
      ensures Due(b, p, path, at, parts, root) <==> Due(b, p, path, at, [], root)
    {
    }
  }

  lemma {:induction false} BuildAccounts(before: Books, source: Slot, parts: Path, path: Path, built: Slot)
    requires parts != [] && Untouched(before, path) && BuildMissing(source, parts) == Some(built)
    ensures Accounted(before, Build(before, source, parts, path), path, Place(None, Some(source), Some(built)), parts, false)
    decreases |parts|
  {
    var name := parts[0];
    var next := Get(source.node, name).value;
    var child, inner;
    if |parts| == 1 {
      child, inner := next, Merge(before, None, next, path + [name], false);
      MergeAccounts(before, None, next, path + [name], false);
    } else {
      child, inner := BuildMissing(next, parts[1..]).value, Build(before, next, parts[1..], path + [name]);
      BuildAccounts(before, next, parts[1..], path + [name], child);
    }
    ParentStaysOpen(before, inner, path, name, Place(None, Some(next), Some(child)), parts[1..]);
    StepAccounts(before, inner, Build(before, source, parts, path), path, Place(None, Some(source), Some(built)),
                 Place(None, Some(next), Some(child)), parts, false);
  }

  /** Restoring one path records exactly what belongs anywhere in the tree. */
  lemma {:induction false} ApplyAccounts(before: Books, current: Option<Slot>, source: Slot, parts: Path, path: Path, root: bool, result: Slot)
    requires Untouched(before, path) && (root ==> current.Some? && current.value.node.Dir? && source.node.Dir?)
    requires Apply(current, source, parts) == Some(result)
    ensures Accounted(before, ApplyBooks(before, current, source, parts, path, root), path, Place(current, Some(source), Some(result)), parts, root)
    decreases |parts|
  {
    if parts == [] {
      MergeAccounts(before, current, source, path, root);
    } else if current.None? {
      BuildAccounts(before, source, parts, path, result);
    } else if current.value.node.File? {
      ReplaceAccounts(before, path, current.value, source);
      NothingPreserved(before, ApplyBooks(before, current, source, parts, path, root), path, Place(current, Some(source), Some(result)), parts, root);
    } else {
      var next, c := Get(source.node, parts[0]).value, Get(current.value.node, parts[0]);
      ApplyAccounts(before, c, next, parts[1..], path + [parts[0]], false, Apply(c, next, parts[1..]).value);
      BelowAccounts(before, current.value, source, parts, path, root, result);
    }
  }

  /** What holds of the entry on the way holds of its directory. */
  lemma BelowAccounts(before: Books, current: Slot, source: Slot, parts: Path, path: Path, root: bool, result: Slot)
    requires Untouched(before, path) && parts != [] && current.node.Dir? && Apply(Some(current), source, parts) == Some(result)
    requires Get(source.node, parts[0]).Some? && Apply(Get(current.node, parts[0]), Get(source.node, parts[0]).value, parts[1..]).Some?
    requires var c, next := Get(current.node, parts[0]), Get(source.node, parts[0]).value;
             var child := Apply(c, next, parts[1..]).value;
             Accounted(before, ApplyBooks(before, c, next, parts[1..], path + [parts[0]], false), path + [parts[0]],
                       Place(c, Some(next), Some(child)), parts[1..], false)
    requires root ==> source.node.Dir?
    ensures Accounted(before, ApplyBooks(before, Some(current), source, parts, path, root), path, Place(Some(current), Some(source), Some(result)), parts, root)
  {
    var name := parts[0];
    var next, c := Get(source.node, name).value, Get(current.node, name);
    var child := Apply(c, next, parts[1..]).value;
    var inner := ApplyBooks(before, c, next, parts[1..], path + [name], false);
    ParentStaysOpen(before, inner, path, name, Place(c, Some(next), Some(child)), parts[1..]);
    StepAccounts(before, inner, ApplyBooks(before, Some(current), source, parts, path, root), path, Place(Some(current), Some(source), Some(result)),
                 Place(c, Some(next), Some(child)), parts, root);
  }

  // ---- counting ----

  /** Every change is recorded once, as one kind, and the counters count. */
  ghost predicate Partition(books: Books) {
    && books.createdCount == |books.created| && books.updatedCount == |books.updated|
    && (forall p :: p in books.changed <==> p in books.created || p in books.updated || p in books.types)
    && (forall p :: p in books.created ==> p !in books.updated && p !in books.types)
    && (forall p :: p in books.updated ==> p !in books.types)
  }

  lemma PartitionSize(books: Books)
    requires Partition(books)
    ensures |books.changed| == books.createdCount + books.updatedCount + |books.types|
  {
    assert books.changed == (books.created + books.updated) + books.types;
    assert books.created !! books.updated && (books.created + books.updated) !! books.types;
    assert |books.created + books.updated| == |books.created| + |books.updated|;
  }

  lemma RecordVisitCounts(visit: Visit, before: Books, path: Path)
    requires Partition(before)
    ensures Partition(RecordVisit(visit, before, path))
  {
  }

  lemma RecordUpdateCounts(before: Books, path: Path)
    requires Partition(before)
    ensures Partition(RecordUpdate(before, path))
  {
  }

  lemma RecordReplacementCounts(before: Books, path: Path)
    requires Partition(before)
    ensures Partition(RecordReplacement(before, path))
  {
  }

  lemma {:induction false} WalkCounts(visit: Visit, before: Books, path: Path, slot: Slot)
    requires Partition(before)
    ensures Partition(Walk(visit, before, path, slot))
    decreases slot.node, 1, 0
  {
    RecordVisitCounts(visit, before, path);
    if slot.node.Dir? {
      WalkNamesCount(visit, RecordVisit(visit, before, path), path, slot.node, T.Ordered(slot.node.entries.Keys));
    }
  }

  lemma {:induction false} WalkNamesCount(visit: Visit, before: Books, path: Path, n: Node, names: seq<Bytes>)
    requires Partition(before) && n.Dir?
    ensures Partition(WalkNames(visit, before, path, n, names))
    decreases n, 0, |names|
  {
    if names != [] {
      if names[0] in n.entries {
        WalkCounts(visit, before, path + [names[0]], n.entries[names[0]]);
      }
      WalkNamesCount(visit, if names[0] in n.entries then Walk(visit, before, path + [names[0]], n.entries[names[0]]) else before, path, n, names[1..]);
    }
  }

  lemma WalkBelowCounts(visit: Visit, before: Books, path: Path, slot: Slot)
    requires Partition(before)
    ensures Partition(WalkBelow(visit, before, path, slot))
  {
    if slot.node.Dir? {
      WalkNamesCount(visit, before, path, slot.node, T.Ordered(slot.node.entries.Keys));
    }
  }

  lemma ReplaceCounts(before: Books, path: Path, current: Slot, source: Slot)
    requires Partition(before)
    ensures Partition(Replace(before, path, current, source))
  {
    WalkBelowCounts(VisitRemoved, before, path, current);
    var removed := WalkBelow(VisitRemoved, before, path, current);
    WalkBelowCounts(VisitCreated, removed, path, source);
    RecordReplacementCounts(WalkBelow(VisitCreated, removed, path, source), path);
  }

  lemma {:induction false} MergeCounts(before: Books, current: Option<Slot>, source: Slot, path: Path, root: bool)
    requires Partition(before)
    ensures Partition(Merge(before, current, source, path, root))
    decreases source.node, 2
  {
    if current.None? {
      WalkCounts(VisitCreated, before, path, source);
    } else if !SameKind(current.value, source) {
      ReplaceCounts(before, path, current.value, source);
    } else if source.node.Dir? {
      MergeDirsCount(before, current.value, source, path, root);
    } else {
      RecordUpdateCounts(before, path);
    }
  }

  lemma {:induction false} MergeDirsCount(before: Books, current: Slot, source: Slot, path: Path, root: bool)
    requires Partition(before) && current.node.Dir? && source.node.Dir?
    ensures Partition(MergeDirs(before, current, source, path, root))
    decreases source.node, 1
  {
    var names := T.Ordered(UnionNames(current.node, source.node));
    MergeNamesCount(before, current.node, source.node, path, names);
    RecordCounts(MergeNames(before, current.node, source.node, path, names), path, root, current, Overlay(current, source));
  }

  lemma RecordCounts(before: Books, path: Path, root: bool, current: Slot, result: Slot)
    requires Partition(before)
    ensures Partition(RecordDirectory(before, path, root, current, result))
  {
    RecordUpdateCounts(before, path);
  }

  lemma {:induction false} MergeNamesCount(before: Books, current: Node, source: Node, path: Path, names: seq<Bytes>)
    requires Partition(before) && current.Dir? && source.Dir?
    ensures Partition(MergeNames(before, current, source, path, names))
    decreases source, 0, |names|
  {
    if names != [] {
      var name := names[0];
      if name in source.entries {
        MergeCounts(before, Get(current, name), source.entries[name], path + [name], false);
      } else if name in current.entries {
        WalkCounts(VisitPreserved, before, path + [name], current.entries[name]);
      }
      MergeNamesCount(MergeName(before, current, source, path, name), current, source, path, names[1..]);
    }
  }

  lemma {:induction false} BuildCounts(before: Books, source: Slot, parts: Path, path: Path)
    requires Partition(before) && parts != []
    ensures Partition(Build(before, source, parts, path))
    decreases |parts|
  {
    var next := Get(source.node, parts[0]);
    if next.Some? {
      if |parts| == 1 {
        MergeCounts(before, None, next.value, path + [parts[0]], false);
        RecordVisitCounts(VisitCreated, Merge(before, None, next.value, path + [parts[0]], false), path);
      } else {
        BuildCounts(before, next.value, parts[1..], path + [parts[0]]);
        RecordVisitCounts(VisitCreated, Build(before, next.value, parts[1..], path + [parts[0]]), path);
      }
    }
  }

  /** However the books were filled, every change is recorded once, as one kind, and counted once. */
  lemma {:induction false} ApplyCounts(before: Books, current: Option<Slot>, source: Slot, parts: Path, path: Path, root: bool)
    requires Partition(before)
    ensures Partition(ApplyBooks(before, current, source, parts, path, root))
    decreases |parts|
  {
    if parts == [] {
      MergeCounts(before, current, source, path, root);
    } else if source.node.Dir? {
      if current.None? {
        BuildCounts(before, source, parts, path);
      } else if current.value.node.File? {
        ReplaceCounts(before, path, current.value, source);
      } else if Get(source.node, parts[0]).Some? {
        var c, next := Get(current.value.node, parts[0]), Get(source.node, parts[0]).value;
        ApplyCounts(before, c, next, parts[1..], path + [parts[0]], false);
        var result := Apply(current, source, parts);
        if result.Some? {
          RecordCounts(ApplyBooks(before, c, next, parts[1..], path + [parts[0]], false), path, root, current.value, result.value);
        }
      }
    }
  }

  // ---- the whole plan ----

  /**
    The books of a plan, exactly. A path is changed when the result has an entry there that Current
    has not, or has differently; removed when only Current has it; preserved when it is Current's
    alone, at or below the restored path, and kept.
   */
  ghost predicate Exact(books: Books, current: Node, source: Node, result: Node, parts: Path) {
    forall b: Book, p: Path {:trigger p in In(books, b)} :: p in In(books, b) <==>
      p != [] && (b == Preserved ==> parts <= p) && Belongs(b, Find(current, p), Find(source, p), Find(result, p))
  }

  /** The books of a plan from scratch are exact, and its counters are their sizes. */
  lemma PlanBooksExact(current: Slot, source: Slot, parts: Path, result: Slot, books: Books)
    requires current.node.Dir? && source.node.Dir? && Apply(Some(current), source, parts) == Some(result)
    requires books == ApplyBooks(NoBooks, Some(current), source, parts, [], true)
    ensures Exact(books, current.node, source.node, result.node, parts)
    ensures Partition(books) && |books.changed| == books.createdCount + books.updatedCount + |books.types|
  {
    var at := Place(Some(current), Some(source), Some(result));
    ApplyAccounts(NoBooks, Some(current), source, parts, [], true, result);
    forall b: Book, p: Path
      ensures p in In(books, b) <==> p != [] && (b == Preserved ==> parts <= p) && Belongs(b, Find(current.node, p), Find(source.node, p), Find(result.node, p))
    {
      assert p[0..] == p && p !in In(NoBooks, b);
    }
    ApplyCounts(NoBooks, Some(current), source, parts, [], true);
    PartitionSize(books);
  }

  /** Planning the same restore over its own result changes and removes nothing. */
  lemma PlanAgain(current: Slot, source: Slot, parts: Path, result: Slot, again: Slot, books: Books)
    requires current.node.Dir? && source.node.Dir? && Apply(Some(current), source, parts) == Some(result)
    requires SlotAt(Some(source), parts).Some?
    requires Apply(Some(result), source, parts) == Some(again) && books == ApplyBooks(NoBooks, Some(result), source, parts, [], true)
    ensures again == result && books.changed == {} && books.removed == {} && books.createdCount == books.updatedCount == 0
  {
    ApplyTwice(Some(current), source, parts, result);
    assert result.node.Dir?;
    PlanBooksExact(result, source, parts, result, books);
    forall p: Path
      ensures p !in books.changed && p !in books.removed
    {
      NothingHere(result.node, source.node, parts, books, p);
    }
    assert books.changed == {};
  }

  lemma ExactAt(books: Books, current: Node, source: Node, result: Node, parts: Path, b: Book, p: Path)
    requires Exact(books, current, source, result, parts)
    ensures p in In(books, b) ==> p != [] && Belongs(b, Find(current, p), Find(source, p), Find(result, p))
  {
  }

  lemma NothingHere(result: Node, source: Node, parts: Path, books: Books, p: Path)
    requires Exact(books, result, source, result, parts)
    ensures p !in books.changed && p !in books.removed
  {
    ExactAt(books, result, source, result, parts, Changed, p);
    ExactAt(books, result, source, result, parts, Removed, p);
  }

  /** A plan that changes no path leaves the tree as it is. */
  lemma UnchangedPlan(current: Slot, source: Slot, parts: Path, result: Slot, books: Books)
    requires current.node.Dir? && source.node.Dir? && Apply(Some(current), source, parts) == Some(result)
    requires Exact(books, current.node, source.node, result.node, parts) && books.changed == {}
    ensures result.node == current.node
  {
    forall p: Path | p != []
      ensures !ChangedAt(Find(current.node, p), Find(result.node, p))
    {
      assert p !in In(books, Changed);
    }
    NoChangeSame(current, source, parts, result);
  }
}
