/**
  Directory trees. An identity is the hash of canonical bytes that are distinct for distinct
  objects, so here a directory entry holds the tree itself in place of its identity.
 */
module Trees {
  import opened Wrappers
  import opened Bytes
  import opened Sorting
  import opened ConflictNames

  const MaxEntries: nat := 100_000

  /** A file by its content identity, or a directory; times are numbers, as their fixed-width texts order. */
  datatype Node = File(content: nat) | Dir(entries: map<Bytes, Slot>)

  datatype Slot = Slot(node: Node, mtime: nat)

  /** A directory entry while a directory is being put together. */
  datatype Entry = Entry(name: Bytes, slot: Slot)

  /** A path as its components. */
  type Path = seq<Bytes>

  const EmptyDir: Node := Dir(map[])

  function Get(n: Node, name: Bytes): Option<Slot> {
    if n.Dir? && name in n.entries then Some(n.entries[name]) else None
  }

  /** The entry at a path below a node. */
  function Find(n: Node, path: Path): Option<Slot>
    requires path != []
    decreases |path|
  {
    var first := Get(n, path[0]);
    if first.None? || |path| == 1 then first else Find(first.value.node, path[1..])
  }

  predicate FileAt(n: Node, path: Path, content: nat) {
    path != [] && Find(n, path).Some? && Find(n, path).value.node == File(content)
  }

  lemma {:induction false} FindPrefix(n: Node, path: Path, more: Path)
    requires path != [] && more != []
    ensures Find(n, path + more) == if Find(n, path).Some? then Find(Find(n, path).value.node, more) else None
    decreases |path|
  {
    var whole := path + more;
    if |path| == 1 {
      assert whole[1..] == more;
    } else {
      assert whole[1..] == path[1..] + more;
      if Get(n, path[0]).Some? {
        FindPrefix(Get(n, path[0]).value.node, path[1..], more);
      }
    }
  }

  // ---- canonical directories ----

  ghost predicate FoldUnique(rules: Rules, names: set<Bytes>) {
    forall a, b :: a in names && b in names && rules.fold(a) == rules.fold(b) ==> a == b
  }

  /** What the canonical encoding demands of a directory and everything below it. */
  ghost predicate Canonical(rules: Rules, n: Node) {
    n.Dir? ==>
      && |n.entries| <= MaxEntries && FoldUnique(rules, n.entries.Keys)
      && (forall name :: name in n.entries ==> rules.validName(name))
      && (forall name :: name in n.entries ==> Canonical(rules, n.entries[name].node))
  }

  function NameOf(e: Entry): Bytes {
    e.name
  }

  function MapOf(entries: seq<Entry>): map<Bytes, Slot> {
    if entries == [] then map[] else MapOf(entries[..|entries| - 1])[entries[|entries| - 1].name := entries[|entries| - 1].slot]
  }

  /** Strictly sorted, without names that are equal under case folding, valid and not too many. */
  ghost predicate CanonicalList(rules: Rules, entries: seq<Entry>) {
    && |entries| <= MaxEntries && IncreasingBy(NameOf, entries)
    && (forall i :: 0 <= i < |entries| ==> rules.validName(entries[i].name))
    && (forall i, j :: 0 <= i < j < |entries| ==> rules.fold(entries[i].name) != rules.fold(entries[j].name))
  }

  ghost predicate NamesDiffer(entries: seq<Entry>) {
    forall i, j :: 0 <= i < j < |entries| ==> entries[i].name != entries[j].name
  }

  lemma LastIsNew(front: seq<Entry>, last: Entry, e: Entry)
    requires NamesDiffer(front + [last]) && e in front
    ensures e.name != last.name
  {
    var j :| 0 <= j < |front| && front[j] == e;
    assert (front + [last])[j].name != (front + [last])[|front|].name;
  }

  lemma {:induction false} MapOfHas(entries: seq<Entry>)
    requires NamesDiffer(entries)
    ensures |MapOf(entries)| == |entries|
    ensures forall e :: e in entries ==> e.name in MapOf(entries) && MapOf(entries)[e.name] == e.slot
    ensures forall name :: name in MapOf(entries) ==> Entry(name, MapOf(entries)[name]) in entries
  {
    if entries != [] {
      var front, last := entries[..|entries| - 1], entries[|entries| - 1];
      assert entries == front + [last];
      MapOfHas(front);
      forall name | name in MapOf(front)
        ensures name != last.name
      {
        LastIsNew(front, last, Entry(name, MapOf(front)[name]));
      }
      forall e | e in front
        ensures e.name != last.name
      {
        LastIsNew(front, last, e);
      }
    }
  }

  /** The entries make this directory. */
  ghost predicate Makes(entries: seq<Entry>, n: Node) {
    && n.Dir?
    && (forall e :: e in entries ==> e.name in n.entries && n.entries[e.name] == e.slot)
    && (forall name :: name in n.entries ==> Entry(name, n.entries[name]) in entries)
  }

  lemma {:induction false} IncreasingDistinctNames(entries: seq<Entry>)
    requires IncreasingBy(NameOf, entries)
    ensures NamesDiffer(entries)
  {
    forall i, j | 0 <= i < j < |entries|
      ensures entries[i].name != entries[j].name
    {
      assert Less(NameOf(entries[i]), NameOf(entries[j]));
      LessIrreflexive(entries[i].name);
    }
  }

  /** The check of a directory that is about to be stored, by name order and folded names seen. */
  method CanonicalDirectory(rules: Rules, entries: seq<Entry>) returns (r: Option<Node>)
    ensures r.Some? <==> CanonicalList(rules, entries)
    ensures r.Some? ==> r.value == Dir(MapOf(entries))
  {
    if |entries| > MaxEntries {
      return None;
    }
    var seen: set<Bytes> := {};
    var i := 0;
    while i < |entries|
      invariant 0 <= i <= |entries|
      invariant CanonicalList(rules, entries[..i])
      invariant seen == FoldAll(rules, Names(entries[..i]))
    {
      if !rules.validName(entries[i].name) || (i > 0 && !Less(entries[i - 1].name, entries[i].name)) ||
         rules.fold(entries[i].name) in seen {
        NotCanonicalList(rules, entries, i);
        return None;
      }
      CanonicalMore(rules, entries, i);
      seen := seen + {rules.fold(entries[i].name)};
      i := i + 1;
    }
    assert entries[..|entries|] == entries;
    return Some(Dir(MapOf(entries)));
  }

  function Names(entries: seq<Entry>): seq<Bytes> {
    seq(|entries|, i requires 0 <= i < |entries| => entries[i].name)
  }

  lemma NotCanonicalList(rules: Rules, entries: seq<Entry>, i: nat)
    requires i < |entries|
    requires || !rules.validName(entries[i].name) || (i > 0 && !Less(entries[i - 1].name, entries[i].name))
             || rules.fold(entries[i].name) in FoldAll(rules, Names(entries[..i]))
    ensures !CanonicalList(rules, entries)
  {
    if rules.fold(entries[i].name) in FoldAll(rules, Names(entries[..i])) {
      var name :| name in Names(entries[..i]) && rules.fold(name) == rules.fold(entries[i].name);
      var j :| 0 <= j < i && Names(entries[..i])[j] == name;
      assert entries[j].name == name;
    } else if i > 0 && !Less(entries[i - 1].name, entries[i].name) {
      assert !Less(NameOf(entries[i - 1]), NameOf(entries[i]));
    }
  }

  lemma CanonicalMore(rules: Rules, entries: seq<Entry>, i: nat)
    requires i < |entries| <= MaxEntries && CanonicalList(rules, entries[..i])
    requires rules.validName(entries[i].name) && (i > 0 ==> Less(entries[i - 1].name, entries[i].name))
    requires rules.fold(entries[i].name) !in FoldAll(rules, Names(entries[..i]))
    ensures CanonicalList(rules, entries[..i + 1])
    ensures FoldAll(rules, Names(entries[..i + 1])) == FoldAll(rules, Names(entries[..i])) + {rules.fold(entries[i].name)}
  {
    var front, longer := entries[..i], entries[..i + 1];
    assert longer == front + [entries[i]];
    assert Names(longer) == Names(front) + [entries[i].name];
    forall j | 0 <= j < i
      ensures rules.fold(front[j].name) != rules.fold(entries[i].name)
    {
      assert Names(front)[j] in Names(front);
    }
    IncreasingByMore(front, entries[i]);
  }

  lemma IncreasingByMore(front: seq<Entry>, last: Entry)
    requires IncreasingBy(NameOf, front) && (front != [] ==> Less(front[|front| - 1].name, last.name))
    ensures IncreasingBy(NameOf, front + [last])
  {
    var longer := front + [last];
    forall j, k | 0 <= j < k < |longer|
      ensures Less(NameOf(longer[j]), NameOf(longer[k]))
    {
      if k < |front| {
        assert Less(NameOf(front[j]), NameOf(front[k]));
      } else if j < |front| - 1 {
        assert Less(NameOf(front[j]), NameOf(front[|front| - 1]));
        LessTrans(front[j].name, front[|front| - 1].name, last.name);
      }
    }
  }
}
