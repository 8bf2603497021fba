/** The merge laws, and that merged directories are canonical. */
module MergeLaws {
  import opened Wrappers
  import opened Bytes
  import opened Sorting
  import opened ConflictNames
  import opened Trees
  import opened TreeMerge
  import Paths

  // ---- sorting keeps the directory ----

  /** The stored directory holds exactly the entries that were put together. */
  lemma ListMakes(rules: Rules, entries: seq<Entry>)
    requires CanonicalList(rules, Sort(NameOf, entries))
    ensures Makes(entries, Dir(MapOf(Sort(NameOf, entries))))
    ensures |MapOf(Sort(NameOf, entries))| <= MaxEntries
  {
    var sorted := Sort(NameOf, entries);
    IncreasingDistinctNames(sorted);
    MapOfHas(sorted);
    forall e
      ensures e in entries <==> e in sorted
    {
      SortMembers(NameOf, entries, e);
    }
  }

  lemma MakesUnique(entries: seq<Entry>, a: Node, b: Node)
    requires Makes(entries, a) && Makes(entries, b)
    ensures a == b
  {
    forall name
      ensures name in a.entries <==> name in b.entries
    {
      if name in a.entries {
        assert Entry(name, a.entries[name]) in entries;
      }
      if name in b.entries {
        assert Entry(name, b.entries[name]) in entries;
      }
    }
    forall name | name in a.entries
      ensures a.entries[name] == b.entries[name]
    {
      assert Entry(name, a.entries[name]) in entries;
    }
    assert a.entries == b.entries;
  }

  lemma OrderedNames(names: set<Bytes>)
    ensures forall name :: name in Ordered(names) <==> name in names
    ensures |Ordered(names)| == |names| && IncreasingBy(TreeMerge.Itself, Ordered(names))
    ensures forall i, j :: 0 <= i < j < |Ordered(names)| ==> Ordered(names)[i] != Ordered(names)[j]
  {
    var s, sorted := SeqOf(names), Ordered(names);
    SortSorts(TreeMerge.Itself, s);
    forall name
      ensures name in sorted <==> name in names
    {
      SortMembers(TreeMerge.Itself, s, name);
    }
    forall i, j | 0 <= i < j < |sorted|
      ensures Less(sorted[i], sorted[j])
    {
      assert AtMost(TreeMerge.Itself(sorted[i]), TreeMerge.Itself(sorted[j]));
      if sorted[i] == sorted[j] {
        var k, l := PermutedTwice(s, sorted, i, j);
      }
    }
    forall i, j | 0 <= i < j < |sorted|
      ensures sorted[i] != sorted[j]
    {
      LessIrreflexive(sorted[i]);
    }
  }

  // ---- the laws ----

  /** The entries of a directory for some names. */
  function Picked(n: Node, names: seq<Bytes>): seq<Entry> {
    if names == [] then [] else ListOf(names[0], Get(n, names[0])) + Picked(n, names[1..])
  }

  lemma {:induction false} PickedMembers(n: Node, names: seq<Bytes>, e: Entry)
    ensures e in Picked(n, names) <==> e.name in names && Get(n, e.name) == Some(e.slot)
  {
    if names != [] {
      PickedMembers(n, names[1..], e);
      assert names == [names[0]] + names[1..];
    }
  }

  /** Every entry can be taken from `n` as it is. */
  ghost predicate AllFrom(base: Node, local: Node, remote: Node, n: Node) {
    forall name :: Settled(Get(base, name), Get(local, name), Get(remote, name)) &&
                   Settle(Get(base, name), Get(local, name), Get(remote, name)) == Get(n, name) &&
                   !LocalConflictCopy(Get(base, name), Get(local, name), Get(remote, name))
  }

  lemma {:induction false} NamesFrom(cfg: Config, base: Node, local: Node, remote: Node, n: Node, path: Path, depth: nat,
                                     names: seq<Bytes>, occupied: seq<Bytes>)
    requires base.Dir? && local.Dir? && remote.Dir? && AllFrom(base, local, remote, n)
    requires MergeNames(cfg, base, local, remote, path, depth, names, occupied).Ok?
    ensures var o := MergeNames(cfg, base, local, remote, path, depth, names, occupied).value;
            o.entries == Picked(n, names) && o.fallbacks == [] && forall e :: e in o.effects ==> e.Drop?
    decreases |names|
  {
    if names != [] {
      var name := names[0];
      assert Settle(Get(base, name), Get(local, name), Get(remote, name)) == Get(n, name);
      var first := MergeName(cfg, base, local, remote, path, depth, name, occupied).value;
      NamesFrom(cfg, base, local, remote, n, path, depth, names[1..], first.occupied);
    }
  }

  lemma PickedMakes(n: Node, names: set<Bytes>)
    requires n.Dir? && n.entries.Keys <= names
    ensures Makes(Picked(n, Ordered(names)), n)
  {
    OrderedNames(names);
    forall e
      ensures e in Picked(n, Ordered(names)) <==> e.name in Ordered(names) && Get(n, e.name) == Some(e.slot)
    {
      PickedMembers(n, Ordered(names), e);
    }
  }

  /** When every entry comes from one tree as it is, the merge is that tree, with no copy and no fallback. */
  lemma MergeFrom(cfg: Config, base: Node, local: Node, remote: Node, n: Node, path: Path, depth: nat, m: Merged)
    requires base.Dir? && local.Dir? && remote.Dir? && n.Dir? && AllFrom(base, local, remote, n)
    requires Merge(cfg, base, local, remote, path, depth) == Ok(m) && n.entries.Keys <= AllNames(base, local, remote)
    ensures m.node == n && m.fallbacks == [] && forall e :: e in m.effects ==> e.Drop?
  {
    var all := AllNames(base, local, remote);
    var o := MergedFrom(cfg, base, local, remote, path, depth, m);
    NamesFrom(cfg, base, local, remote, n, path, depth, Ordered(all), Ordered(all));
    ListMakes(cfg.rules, o.entries);
    PickedMakes(n, all);
    MakesUnique(o.entries, n, m.node);
  }

  /** Local unchanged: the merge is Remote. */
  lemma MergeTakesRemote(cfg: Config, base: Node, remote: Node, path: Path, depth: nat)
    requires base.Dir? && remote.Dir? && Merge(cfg, base, base, remote, path, depth).Ok?
    ensures var m := Merge(cfg, base, base, remote, path, depth).value; m.node == remote && m.fallbacks == []
  {
    MergeFrom(cfg, base, base, remote, remote, path, depth, Merge(cfg, base, base, remote, path, depth).value);
  }

  /** Remote unchanged: the merge is Local. */
  lemma MergeTakesLocal(cfg: Config, base: Node, local: Node, path: Path, depth: nat)
    requires base.Dir? && local.Dir? && Merge(cfg, base, local, base, path, depth).Ok?
    ensures var m := Merge(cfg, base, local, base, path, depth).value; m.node == local && m.fallbacks == []
  {
    MergeFrom(cfg, base, local, base, local, path, depth, Merge(cfg, base, local, base, path, depth).value);
  }

  /** Both sides made the same change: the merge is that change. */
  lemma MergeTakesBoth(cfg: Config, base: Node, both: Node, path: Path, depth: nat)
    requires base.Dir? && both.Dir? && Merge(cfg, base, both, both, path, depth).Ok?
    ensures var m := Merge(cfg, base, both, both, path, depth).value; m.node == both && m.fallbacks == []
  {
    MergeFrom(cfg, base, both, both, both, path, depth, Merge(cfg, base, both, both, path, depth).value);
  }

  // ---- names in one merged directory ----

  ghost predicate FoldDistinct(rules: Rules, names: seq<Bytes>) {
    forall i, j :: 0 <= i < j < |names| ==> rules.fold(names[i]) != rules.fold(names[j])
  }

  ghost predicate NoDuplicates(names: seq<Bytes>) {
    forall i, j :: 0 <= i < j < |names| ==> names[i] != names[j]
  }

  /** The state in which the names of a directory are worked off. */
  ghost predicate Ready(rules: Rules, names: seq<Bytes>, occupied: seq<Bytes>) {
    FoldDistinct(rules, occupied) && NoDuplicates(names) && forall name :: name in names ==> name in occupied
  }

  lemma OrderedReady(rules: Rules, names: set<Bytes>)
    requires FoldUnique(rules, names)
    ensures Ready(rules, Ordered(names), Ordered(names))
  {
    OrderedNames(names);
    var s := Ordered(names);
    forall i, j | 0 <= i < j < |s|
      ensures rules.fold(s[i]) != rules.fold(s[j])
    {
      assert s[i] in names && s[j] in names && s[i] != s[j];
    }
  }

  /** The copy's name is new, whatever is already in use. */
  lemma CopyIsNew(cfg: Config, path: Path, name: Bytes, occupied: seq<Bytes>)
    requires CopyName(cfg.rules, cfg.seed, name, Paths.Join(path), occupied).Chosen?
    ensures var copy := CopyName(cfg.rules, cfg.seed, name, Paths.Join(path), occupied).name;
            cfg.rules.validName(copy) && copy !in occupied && forall other :: other in occupied ==> cfg.rules.fold(other) != cfg.rules.fold(copy)
  {
    var taken := FoldAll(cfg.rules, occupied);
    var marker := CopyMarker(cfg.rules, cfg.seed.device, cfg.seed.time);
    var number := CopyFromFits(cfg.rules, name, Paths.Join(path), marker, taken, 1);
    forall other | other in occupied
      ensures cfg.rules.fold(other) in taken
    {
    }
  }

  /** The names that were added while some names were worked off. */
  ghost function Added(before: seq<Bytes>, after: seq<Bytes>): set<Bytes> {
    if before <= after then set name | name in after[|before|..] else {}
  }

  /** What an outcome's entries are called, and that no name comes twice. */
  ghost predicate Shape(rules: Rules, o: Outcome, names: seq<Bytes>, occupied: seq<Bytes>) {
    && occupied <= o.occupied && FoldDistinct(rules, o.occupied) && NoDuplicates(Names(o.entries))
    && (forall e :: e in o.entries ==> e.name in names || e.name in Added(occupied, o.occupied))
    && (forall other :: other in Added(occupied, o.occupied) ==> rules.validName(other))
  }

  /** One name's outcome: its entries carry the name or the one new name. */
  lemma NameShape(cfg: Config, base: Node, local: Node, remote: Node, path: Path, depth: nat, name: Bytes, occupied: seq<Bytes>, o: Outcome)
    requires base.Dir? && local.Dir? && remote.Dir? && FoldDistinct(cfg.rules, occupied) && name in occupied
    requires MergeName(cfg, base, local, remote, path, depth, name, occupied) == Ok(o)
    ensures Shape(cfg.rules, o, [name], occupied)
  {
    var b, l, r := Get(base, name), Get(local, name), Get(remote, name);
    if LocalConflictCopy(b, l, r) && CopyName(cfg.rules, cfg.seed, name, Paths.Join(path), occupied).Chosen? {
      CopyIsNew(cfg, path, name, occupied);
      var copy := o.occupied[|occupied|];
      CopyShape(cfg.rules, ListOf(name, r), Entry(copy, l.value), name, occupied, o);
    } else {
      assert o.occupied == occupied && |o.entries| <= 1;
    }
  }

  lemma CopyShape(rules: Rules, first: seq<Entry>, copy: Entry, name: Bytes, occupied: seq<Bytes>, o: Outcome)
    requires FoldDistinct(rules, occupied) && name in occupied && copy.name !in occupied && rules.validName(copy.name)
    requires forall other :: other in occupied ==> rules.fold(other) != rules.fold(copy.name)
    requires |first| <= 1 && (first != [] ==> first[0].name == name)
    requires o.entries == first + [copy] && o.occupied == occupied + [copy.name]
    ensures Shape(rules, o, [name], occupied)
  {
    assert o.occupied[|occupied|..] == [copy.name];
  }

  lemma AddedJoins(a: seq<Bytes>, b: seq<Bytes>, c: seq<Bytes>)
    requires a <= b && b <= c
    ensures a <= c && Added(a, c) == Added(a, b) + Added(b, c)
  {
    assert c[|a|..] == b[|a|..] + c[|b|..];
  }

  lemma AddedElsewhere(rules: Rules, before: seq<Bytes>, after: seq<Bytes>, name: Bytes)
    requires before <= after && FoldDistinct(rules, after) && name in Added(before, after)
    ensures name !in before && name in after
  {
    var j :| 0 <= j < |after[|before|..]| && after[|before|..][j] == name;
    assert after[|before| + j] == name;
    forall i | 0 <= i < |before|
      ensures before[i] != name
    {
      assert before[i] == after[i];
    }
  }

  lemma ReadyRest(rules: Rules, names: seq<Bytes>, occupied: seq<Bytes>, longer: seq<Bytes>)
    requires Ready(rules, names, occupied) && names != [] && occupied <= longer && FoldDistinct(rules, longer)
    ensures Ready(rules, names[1..], longer) && names[0] !in names[1..] && names[0] in occupied
  {
    var rest := names[1..];
    forall i, j | 0 <= i < j < |rest|
      ensures rest[i] != rest[j]
    {
      assert rest[i] == names[i + 1] && rest[j] == names[j + 1];
    }
    forall name | name in rest
      ensures name in longer
    {
      assert name in names && name in occupied;
    }
    forall i | 0 <= i < |rest|
      ensures rest[i] != names[0]
    {
      assert rest[i] == names[i + 1];
    }
  }

  lemma ShapeAppend(rules: Rules, names: seq<Bytes>, occupied: seq<Bytes>, first: Outcome, rest: Outcome)
    requires Ready(rules, names, occupied) && names != []
    requires Shape(rules, first, [names[0]], occupied) && Shape(rules, rest, names[1..], first.occupied)
    ensures Shape(rules, Append(first, rest), names, occupied)
  {
    AddedJoins(occupied, first.occupied, rest.occupied);
    ReadyRest(rules, names, occupied, first.occupied);
    assert names == [names[0]] + names[1..];
    forall x, y | x in first.entries && y in rest.entries
      ensures x.name != y.name
    {
      if x.name in Added(occupied, first.occupied) {
        AddedElsewhere(rules, occupied, first.occupied, x.name);
      }
      if y.name in Added(first.occupied, rest.occupied) {
        AddedElsewhere(rules, first.occupied, rest.occupied, y.name);
      }
      assert y.name in names[1..] ==> y.name in occupied;
    }
    DuplicatesAppend(first.entries, rest.entries);
  }

  lemma DuplicatesAppend(a: seq<Entry>, b: seq<Entry>)
    requires NoDuplicates(Names(a)) && NoDuplicates(Names(b))
    requires forall x, y :: x in a && y in b ==> x.name != y.name
    ensures NoDuplicates(Names(a + b))
  {
    var all := a + b;
    forall i, j | 0 <= i < j < |all|
      ensures Names(all)[i] != Names(all)[j]
    {
      if j < |a| {
        assert Names(a)[i] != Names(a)[j];
      } else if i >= |a| {
        assert Names(b)[i - |a|] != Names(b)[j - |a|];
      } else {
        assert all[i] in a && all[j] in b;
      }
    }
  }

  lemma {:induction false} NamesShape(cfg: Config, base: Node, local: Node, remote: Node, path: Path, depth: nat,
                                      names: seq<Bytes>, occupied: seq<Bytes>)
    requires base.Dir? && local.Dir? && remote.Dir? && Ready(cfg.rules, names, occupied)
    requires MergeNames(cfg, base, local, remote, path, depth, names, occupied).Ok?
    ensures Shape(cfg.rules, MergeNames(cfg, base, local, remote, path, depth, names, occupied).value, names, occupied)
    decreases |names|
  {
    if names != [] {
      var first := MergeName(cfg, base, local, remote, path, depth, names[0], occupied).value;
      NameShape(cfg, base, local, remote, path, depth, names[0], occupied, first);
      ReadyRest(cfg.rules, names, occupied, first.occupied);
      NamesShape(cfg, base, local, remote, path, depth, names[1..], first.occupied);
      ShapeAppend(cfg.rules, names, occupied, first, MergeNames(cfg, base, local, remote, path, depth, names[1..], first.occupied).value);
    }
  }

  // ---- canonical results ----

  ghost predicate EntriesCanonical(rules: Rules, entries: seq<Entry>) {
    forall e :: e in entries ==> Canonical(rules, e.slot.node)
  }

  lemma ChildCanonical(rules: Rules, n: Node, name: Bytes)
    requires Canonical(rules, n) && Get(n, name).Some?
    ensures Canonical(rules, Get(n, name).value.node) && rules.validName(name)
  {
  }

  ghost predicate SlotCanonical(rules: Rules, slot: Option<Slot>) {
    slot.Some? ==> Canonical(rules, slot.value.node)
  }

  lemma TakenCanonical(cfg: Config, b: Option<Slot>, l: Option<Slot>, r: Option<Slot>, path: Path, name: Bytes, occupied: seq<Bytes>)
    requires SlotCanonical(cfg.rules, l) && SlotCanonical(cfg.rules, r)
    ensures Settled(b, l, r) ==> EntriesCanonical(cfg.rules, ListOf(name, Settle(b, l, r)))
    ensures l.Some? && StepAside(cfg, path, name, l.value, r, occupied).Ok? ==>
              EntriesCanonical(cfg.rules, StepAside(cfg, path, name, l.value, r, occupied).value.entries)
  {
  }

  /** Every entry that a merge puts into a directory is canonical below. */
  lemma {:induction false} NameCanonical(cfg: Config, base: Node, local: Node, remote: Node, path: Path, depth: nat,
                                         name: Bytes, occupied: seq<Bytes>, o: Outcome)
    requires base.Dir? && local.Dir? && remote.Dir?
    requires Canonical(cfg.rules, base) && Canonical(cfg.rules, local) && Canonical(cfg.rules, remote)
    requires MergeName(cfg, base, local, remote, path, depth, name, occupied) == Ok(o)
    ensures EntriesCanonical(cfg.rules, o.entries)
    decreases local, 1, 0
  {
    var b, l, r := Get(base, name), Get(local, name), Get(remote, name);
    assert SlotCanonical(cfg.rules, b) && SlotCanonical(cfg.rules, l) && SlotCanonical(cfg.rules, r);
    TakenCanonical(cfg, b, l, r, path, name, occupied);
    if !LocalConflictCopy(b, l, r) && !Settled(b, l, r) {
      CombinedOutcome(cfg, base, local, remote, path, depth, name, occupied);
      var both := MergeBoth(cfg, b, l.value, r, path + [name], depth).value;
      if l.value.node.Dir? {
        var m := Merge(cfg, BaseDirectory(b), l.value.node, r.value.node, path + [name], depth + 1).value;
        MergeCanonical(cfg, BaseDirectory(b), l.value.node, r.value.node, path + [name], depth + 1, m);
      }
      assert Canonical(cfg.rules, both.slot.value.node);
    }
  }

  lemma {:induction false} NamesCanonical(cfg: Config, base: Node, local: Node, remote: Node, path: Path, depth: nat,
                                          names: seq<Bytes>, occupied: seq<Bytes>)
    requires base.Dir? && local.Dir? && remote.Dir?
    requires Canonical(cfg.rules, base) && Canonical(cfg.rules, local) && Canonical(cfg.rules, remote)
    requires MergeNames(cfg, base, local, remote, path, depth, names, occupied).Ok?
    ensures EntriesCanonical(cfg.rules, MergeNames(cfg, base, local, remote, path, depth, names, occupied).value.entries)
    decreases local, 1, |names|
  {
    if names != [] {
      var first := MergeName(cfg, base, local, remote, path, depth, names[0], occupied).value;
      NameCanonical(cfg, base, local, remote, path, depth, names[0], occupied, first);
      NamesCanonical(cfg, base, local, remote, path, depth, names[1..], first.occupied);
    }
  }

  lemma MadeCanonical(rules: Rules, entries: seq<Entry>)
    requires CanonicalList(rules, Sort(NameOf, entries)) && EntriesCanonical(rules, entries)
    ensures Canonical(rules, Dir(MapOf(Sort(NameOf, entries))))
  {
    var sorted := Sort(NameOf, entries);
    var n := Dir(MapOf(sorted));
    ListMakes(rules, entries);
    forall name | name in n.entries
      ensures rules.validName(name) && Canonical(rules, n.entries[name].node)
    {
      assert Entry(name, n.entries[name]) in entries;
      SortMembers(NameOf, entries, Entry(name, n.entries[name]));
      var i :| 0 <= i < |sorted| && sorted[i] == Entry(name, n.entries[name]);
      assert rules.validName(sorted[i].name);
    }
    forall a, b | a in n.entries && b in n.entries && rules.fold(a) == rules.fold(b)
      ensures a == b
    {
      SortMembers(NameOf, entries, Entry(a, n.entries[a]));
      SortMembers(NameOf, entries, Entry(b, n.entries[b]));
      NameInList(sorted, Entry(a, n.entries[a]));
      NameInList(sorted, Entry(b, n.entries[b]));
      SameFoldSame(rules, Names(sorted), a, b);
    }
  }

  lemma NameInList(entries: seq<Entry>, e: Entry)
    requires e in entries
    ensures e.name in Names(entries)
  {
    var i :| 0 <= i < |entries| && entries[i] == e;
    assert Names(entries)[i] == e.name;
  }

  lemma EntryOfName(entries: seq<Entry>, name: Bytes) returns (e: Entry)
    requires name in Names(entries)
    ensures e in entries && e.name == name
  {
    var i :| 0 <= i < |entries| && Names(entries)[i] == name;
    e := entries[i];
  }

  lemma DifferentFolds(rules: Rules, names: seq<Bytes>, a: Bytes, b: Bytes)
    requires FoldDistinct(rules, names) && a in names && b in names && a != b
    ensures rules.fold(a) != rules.fold(b)
  {
    var i :| 0 <= i < |names| && names[i] == a;
    var j :| 0 <= j < |names| && names[j] == b;
    if i < j {
      assert rules.fold(names[i]) != rules.fold(names[j]);
    } else {
      assert rules.fold(names[j]) != rules.fold(names[i]);
    }
  }

  lemma SameFoldSame(rules: Rules, names: seq<Bytes>, a: Bytes, b: Bytes)
    requires FoldDistinct(rules, names) && a in names && b in names && rules.fold(a) == rules.fold(b)
    ensures a == b
  {
    if a != b {
      DifferentFolds(rules, names, a, b);
    }
  }

  /** Merging canonical trees gives a canonical tree: every directory sorted and free of folded collisions. */
  lemma {:induction false} MergeCanonical(cfg: Config, base: Node, local: Node, remote: Node, path: Path, depth: nat, m: Merged)
    requires base.Dir? && local.Dir? && remote.Dir?
    requires Canonical(cfg.rules, base) && Canonical(cfg.rules, local) && Canonical(cfg.rules, remote)
    requires Merge(cfg, base, local, remote, path, depth) == Ok(m)
    ensures Canonical(cfg.rules, m.node)
    decreases local, 2, 0
  {
    var names := Ordered(AllNames(base, local, remote));
    var o := MergedFrom(cfg, base, local, remote, path, depth, m);
    NamesCanonical(cfg, base, local, remote, path, depth, names, names);
    MadeCanonical(cfg.rules, o.entries);
  }

  lemma SortedNames(entries: seq<Entry>, i: nat)
    requires i < |Sort(NameOf, entries)|
    ensures Sort(NameOf, entries)[i].name in Names(entries)
  {
    SortMembers(NameOf, entries, Sort(NameOf, entries)[i]);
    NameInList(entries, Sort(NameOf, entries)[i]);
  }

  lemma SortedIncreasing(entries: seq<Entry>)
    requires NoDuplicates(Names(entries))
    ensures IncreasingBy(NameOf, Sort(NameOf, entries))
    ensures forall i, j :: 0 <= i < j < |Sort(NameOf, entries)| ==> Sort(NameOf, entries)[i].name != Sort(NameOf, entries)[j].name
  {
    var sorted := Sort(NameOf, entries);
    SortSorts(NameOf, entries);
    forall i, j | 0 <= i < j < |sorted|
      ensures sorted[i].name != sorted[j].name && Less(NameOf(sorted[i]), NameOf(sorted[j]))
    {
      if sorted[i].name == sorted[j].name {
        SortedTwice(entries, sorted, i, j);
      }
      assert AtMost(NameOf(sorted[i]), NameOf(sorted[j]));
    }
  }

  lemma DistinctSorted(rules: Rules, entries: seq<Entry>, known: seq<Bytes>)
    requires NoDuplicates(Names(entries)) && FoldDistinct(rules, known)
    requires forall name :: name in Names(entries) ==> name in known && rules.validName(name)
    ensures CanonicalList(rules, Sort(NameOf, entries)) <==> |entries| <= MaxEntries
  {
    var sorted := Sort(NameOf, entries);
    SortSorts(NameOf, entries);
    SortedIncreasing(entries);
    forall i | 0 <= i < |sorted|
      ensures sorted[i].name in known && rules.validName(sorted[i].name)
    {
      SortedNames(entries, i);
    }
    forall i, j | 0 <= i < j < |sorted|
      ensures rules.fold(sorted[i].name) != rules.fold(sorted[j].name)
    {
      if rules.fold(sorted[i].name) == rules.fold(sorted[j].name) {
        SameFoldSame(rules, known, sorted[i].name, sorted[j].name);
      }
    }
  }

  lemma SortedTwice(entries: seq<Entry>, sorted: seq<Entry>, i: nat, j: nat)
    requires multiset(entries) == multiset(sorted) && i < j < |sorted| && sorted[i].name == sorted[j].name
    ensures !NoDuplicates(Names(entries))
  {
    var x, y := sorted[i], sorted[j];
    assert x in multiset(entries) && y in multiset(entries);
    if x == y {
      var k, l := PermutedTwice(entries, sorted, i, j);
      assert Names(entries)[k] == Names(entries)[l];
    } else {
      var k :| 0 <= k < |entries| && entries[k] == x;
      var l :| 0 <= l < |entries| && entries[l] == y;
      assert Names(entries)[k] == Names(entries)[l];
    }
  }

  /** The check of the merged directory can only fail because it has too many entries. */
  lemma MergedNamesAreCanonical(cfg: Config, base: Node, local: Node, remote: Node, path: Path, depth: nat)
    requires base.Dir? && local.Dir? && remote.Dir?
    requires Canonical(cfg.rules, base) && Canonical(cfg.rules, local) && Canonical(cfg.rules, remote)
    requires FoldUnique(cfg.rules, AllNames(base, local, remote))
    requires var names := Ordered(AllNames(base, local, remote));
             MergeNames(cfg, base, local, remote, path, depth, names, names).Ok?
    ensures var names := Ordered(AllNames(base, local, remote));
            var entries := MergeNames(cfg, base, local, remote, path, depth, names, names).value.entries;
            CanonicalList(cfg.rules, Sort(NameOf, entries)) <==> |entries| <= MaxEntries
  {
    var names := Ordered(AllNames(base, local, remote));
    var o := MergeNames(cfg, base, local, remote, path, depth, names, names).value;
    OrderedNames(AllNames(base, local, remote));
    OrderedReady(cfg.rules, AllNames(base, local, remote));
    NamesShape(cfg, base, local, remote, path, depth, names, names);
    forall name | name in Names(o.entries)
      ensures name in o.occupied && cfg.rules.validName(name)
    {
      var e := EntryOfName(o.entries, name);
      if name in Added(names, o.occupied) {
        AddedElsewhere(cfg.rules, names, o.occupied, name);
      } else {
        KnownName(cfg.rules, base, local, remote, name, o.occupied);
      }
    }
    DistinctSorted(cfg.rules, o.entries, o.occupied);
  }

  lemma KnownName(rules: Rules, base: Node, local: Node, remote: Node, name: Bytes, occupied: seq<Bytes>)
    requires base.Dir? && local.Dir? && remote.Dir? && name in AllNames(base, local, remote)
    requires Canonical(rules, base) && Canonical(rules, local) && Canonical(rules, remote)
    requires Ordered(AllNames(base, local, remote)) <= occupied
    ensures rules.validName(name) && name in occupied
  {
    OrderedNames(AllNames(base, local, remote));
    assert name in base.entries || name in local.entries || name in remote.entries;
  }
}
