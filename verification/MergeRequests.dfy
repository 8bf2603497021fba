/** What a merge asks the fallback directory to take: Local's entries as they are, which nothing else moves. */
module MergeRequests {
  import opened Wrappers
  import opened Bytes
  import opened Sorting
  import opened ConflictNames
  import opened Trees
  import opened TreeMerge
  import opened MergeLaws
  import opened MergeFates

  /** The effect and the request concern different places, neither below the other. */
  predicate Clear(e: Effect, f: Fallback) {
    !(e.path <= f.source) && !(f.source <= e.path)
  }

  ghost predicate AllClear(effects: seq<Effect>, fallbacks: seq<Fallback>) {
    forall e, f {:trigger Clear(e, f)} :: e in effects && f in fallbacks ==> Clear(e, f)
  }

  /** The request is for what Local has at its source. */
  predicate LocalAt(local: Node, path: Path, f: Fallback) {
    |f.source| > |path| && path <= f.source && Find(local, f.source[|path|..]) == Some(f.slot)
  }

  ghost predicate FromLocal(local: Node, path: Path, fallbacks: seq<Fallback>) {
    forall f {:trigger LocalAt(local, path, f)} :: f in fallbacks ==> LocalAt(local, path, f)
  }

  /** A move gives an entry another name in its own directory. */
  predicate Renames(e: Effect) {
    e.Move? ==> e.path != [] && |e.target| == |e.path| && e.target[..|e.path| - 1] == e.path[..|e.path| - 1]
  }

  ghost predicate AllRename(effects: seq<Effect>) {
    forall e {:trigger Renames(e)} :: e in effects ==> Renames(e)
  }

  ghost predicate Sorted(local: Node, path: Path, effects: seq<Effect>, fallbacks: seq<Fallback>) {
    AllClear(effects, fallbacks) && FromLocal(local, path, fallbacks) && AllRename(effects)
  }

  /** So a file that is followed through a merge stays as deep as it was. */
  lemma {:induction false} FollowKeepsDepth(effects: seq<Effect>, p: Path)
    requires AllRename(effects)
    ensures Follow(effects, p).Some? ==> |Follow(effects, p).value| == |p|
  {
    if effects != [] {
      assert Renames(effects[0]);
      var next := FollowOne(effects[0], p);
      if next.Some? {
        FollowKeepsDepth(effects[1..], next.value);
      }
    }
  }

  lemma BelowBoth(place: Path, other: Path, path: Path, a: set<Bytes>, b: set<Bytes>)
    requires Below(place, path, a) && Below(other, path, b) && a !! b
    ensures !(place <= other) && !(other <= place)
  {
    assert place[|path|] in a && other[|path|] in b;
    NotBelow(place, path, a, other);
    NotBelow(other, path, b, place);
  }

  lemma SortedAppend(local: Node, path: Path, first: Outcome, rest: Outcome, a: set<Bytes>, b: set<Bytes>)
    requires Sorted(local, path, first.effects, first.fallbacks) && Sorted(local, path, rest.effects, rest.fallbacks) && a !! b
    requires EffectsBelow(first.effects, path, a) && SourcesBelow(first.fallbacks, path, a)
    requires EffectsBelow(rest.effects, path, b) && SourcesBelow(rest.fallbacks, path, b)
    ensures Sorted(local, path, first.effects + rest.effects, first.fallbacks + rest.fallbacks)
  {
    forall e, f | e in first.effects + rest.effects && f in first.fallbacks + rest.fallbacks
      ensures Clear(e, f)
    {
      if e in first.effects && f in rest.fallbacks {
        BelowBoth(e.path, f.source, path, a, b);
      } else if e in rest.effects && f in first.fallbacks {
        BelowBoth(f.source, e.path, path, a, b);
      }
    }
  }

  lemma FromChild(local: Node, path: Path, name: Bytes, effects: seq<Effect>, fallbacks: seq<Fallback>)
    requires Get(local, name).Some? && Sorted(Get(local, name).value.node, path + [name], effects, fallbacks)
    ensures Sorted(local, path, effects, fallbacks)
  {
    forall f | f in fallbacks
      ensures LocalAt(local, path, f)
    {
      assert LocalAt(Get(local, name).value.node, path + [name], f);
      var rest := f.source[|path|..];
      assert f.source[..|path| + 1] == path + [name];
      assert rest[0] == f.source[..|path| + 1][|path|] == name;
      assert rest[1..] == f.source[|path + [name]|..];
      assert f.source[..|path|] == f.source[..|path| + 1][..|path|];
    }
  }

  lemma {:induction false} NameSorted(cfg: Config, base: Node, local: Node, remote: Node, path: Path, depth: nat,
                                      name: Bytes, occupied: seq<Bytes>, o: Outcome)
    requires base.Dir? && local.Dir? && remote.Dir? && MergeName(cfg, base, local, remote, path, depth, name, occupied) == Ok(o)
    ensures Sorted(local, path, o.effects, o.fallbacks)
    decreases local, 1, 0
  {
    var b, l, r := Get(base, name), Get(local, name), Get(remote, name);
    if LocalConflictCopy(b, l, r) {
      var source := path + [name];
      assert source[|path|..] == [name];
      assert (path + [name])[..|path|] == path;
      assert o.fallbacks == [] || (o.effects == [] && o.fallbacks == [Fallback(source, name, l.value)]);
    } else if !Settled(b, l, r) {
      CombinedOutcome(cfg, base, local, remote, path, depth, name, occupied);
      if l.value.node.Dir? {
        var m := Merge(cfg, BaseDirectory(b), l.value.node, r.value.node, path + [name], depth + 1).value;
        MergeSorted(cfg, BaseDirectory(b), l.value.node, r.value.node, path + [name], depth + 1, m);
        FromChild(local, path, name, o.effects, o.fallbacks);
      }
    }
  }

  lemma {:induction false} NamesSorted(cfg: Config, base: Node, local: Node, remote: Node, path: Path, depth: nat,
                                       names: seq<Bytes>, occupied: seq<Bytes>, o: Outcome)
    requires base.Dir? && local.Dir? && remote.Dir? && NoDuplicates(names)
    requires MergeNames(cfg, base, local, remote, path, depth, names, occupied) == Ok(o)
    ensures Sorted(local, path, o.effects, o.fallbacks)
    decreases local, 1, |names|
  {
    if names != [] {
      var first := MergeName(cfg, base, local, remote, path, depth, names[0], occupied).value;
      var rest := MergeNames(cfg, base, local, remote, path, depth, names[1..], first.occupied).value;
      NameSorted(cfg, base, local, remote, path, depth, names[0], occupied, first);
      NameBelow(cfg, base, local, remote, path, depth, names[0], occupied);
      TailDiffers(names);
      NamesSorted(cfg, base, local, remote, path, depth, names[1..], first.occupied, rest);
      NamesBelow(cfg, base, local, remote, path, depth, names[1..], first.occupied);
      SortedAppend(local, path, first, rest, {names[0]}, Set(names[1..]));
    }
  }

  lemma TailDiffers(names: seq<Bytes>)
    requires names != [] && NoDuplicates(names)
    ensures NoDuplicates(names[1..]) && names[0] !in Set(names[1..])
  {
    forall i, j | 0 <= i < j < |names[1..]|
      ensures names[1..][i] != names[1..][j]
    {
      assert names[1..][i] == names[i + 1] && names[1..][j] == names[j + 1];
    }
  }

  lemma {:induction false} MergeSorted(cfg: Config, base: Node, local: Node, remote: Node, path: Path, depth: nat, m: Merged)
    requires base.Dir? && local.Dir? && remote.Dir? && Merge(cfg, base, local, remote, path, depth) == Ok(m)
    ensures Sorted(local, path, m.effects, m.fallbacks)
    decreases local, 2, 0
  {
    var names := Ordered(AllNames(base, local, remote));
    var o := MergedFrom(cfg, base, local, remote, path, depth, m);
    OrderedNames(AllNames(base, local, remote));
    NamesSorted(cfg, base, local, remote, path, depth, names, names, o);
  }

  /** Nothing that the merge does itself concerns a file that waits for the fallback directory. */
  lemma {:induction false} WaitsInPlace(effects: seq<Effect>, f: Fallback, p: Path)
    requires (forall e {:trigger Clear(e, f)} :: e in effects ==> Clear(e, f)) && f.source <= p
    ensures Follow(effects, p) == Some(p)
  {
    if effects != [] {
      var e := effects[0];
      assert Clear(e, f);
      assert e.path <= p ==> e.path <= f.source || f.source <= e.path;
      WaitsInPlace(effects[1..], f, p);
    }
  }
}
