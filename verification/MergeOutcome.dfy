/** Where the files of both sides are after a whole merge, and what else there is, fallback directory included. */
module MergeOutcome {
  import opened Wrappers
  import opened Bytes
  import opened Text
  import opened Sorting
  import opened ConflictNames
  import opened Trees
  import opened TreeMerge
  import opened MergeLaws
  import opened MergeFates
  import opened MergeTracks
  import opened MergeRequests
  import opened MergeTable
  import opened MergeFallbacks
  import opened MergeTimes
  import opened LineageExact

  // ---- where a Local file goes ----

  /** The path with another name at one position. */
  predicate IsCopy(p: Path, t: Path, k: nat) {
    k < |p| && |t| == |p| && t == p[k := t[k]]
  }

  /** A fallback directory, a new name, and the rest of the path below one of its entries. */
  predicate IsFallback(p: Path, t: Path, k: nat, n: nat) {
    1 <= k <= |p| && |t| == 2 + |p| - k && t[0] == FallbackRoot + Suffix(n) && t[2..] == p[k..]
  }

  ghost predicate SetApart(p: Path, t: Path) {
    (exists k :: IsCopy(p, t, k)) || (exists k, n :: IsFallback(p, t, k, n))
  }

  /** The file has a conflict at its path or at a directory above. */
  ghost predicate Disputed(base: Node, local: Node, remote: Node, p: Path) {
    exists k {:trigger p[..k]} :: 1 <= k <= |p| && ConflictAt(base, local, remote, p[..k])
  }

  /** The file is at its path; or, in a conflict, at its copy or in a fallback directory. */
  ghost predicate KeptAt(base: Node, local: Node, remote: Node, result: Node, p: Path, content: nat, t: Path) {
    FileAt(result, t, content) && (t == p || (SetApart(p, t) && Disputed(base, local, remote, p)))
  }

  /** Every Local file that Local touched is at its path, or in a conflict at its copy or in a fallback directory; for all inputs. */
  lemma LocalFileGoes(cfg: Config, base: Node, local: Node, remote: Node, p: Path, content: nat) returns (t: Path)
    requires base.Dir? && local.Dir? && remote.Dir? && FileAt(local, p, content) && !Untouched(base, local, p)
    requires MergeTrees(cfg, base, local, remote).Some?
    ensures KeptAt(base, local, remote, MergeTrees(cfg, base, local, remote).value.node, p, content, t)
  {
    var m := Merge(cfg, base, local, remote, [], 0).value;
    t := NoLocalContentLost(cfg, base, local, remote, p, content);
    if t != p {
      if Follow(m.effects, p) == Some(t) && |t| == |p| {
        MergeCarried(cfg, base, local, remote, [], 0, p, content, m);
        assert [] + p == p;
        var k :| 0 <= k < |p| && |t| == |p| && t == p[k := t[k]];
        assert IsCopy(p, t, k);
      } else {
        FallbackPlace(cfg, base, local, remote, p, t, m);
      }
      var k := MovedInConflict(cfg, base, local, remote, p, m);
    }
  }

  lemma FallbackPlace(cfg: Config, base: Node, local: Node, remote: Node, p: Path, t: Path, m: Merged)
    requires base.Dir? && local.Dir? && remote.Dir? && MergeTrees(cfg, base, local, remote).Some? && Merge(cfg, base, local, remote, [], 0) == Ok(m)
    requires var rootName := MergeTrees(cfg, base, local, remote).value.rootName;
             exists f, name :: f in m.fallbacks && f.source <= p && t == [rootName, name] + p[|f.source|..]
    ensures SetApart(p, t) && exists f :: f in m.fallbacks && f.source <= p
  {
    var rootName := MergeTrees(cfg, base, local, remote).value.rootName;
    var f, name :| f in m.fallbacks && f.source <= p && t == [rootName, name] + p[|f.source|..];
    MergeSorted(cfg, base, local, remote, [], 0, m);
    assert LocalAt(local, [], f);
    var requests, chosen := ChosenRoot(cfg, m.node, m.fallbacks);
    var n := ChosenName(cfg.rules, m.node, 1);
    assert t[2..] == p[|f.source|..];
    assert IsFallback(p, t, |f.source|, n);
  }

  // ---- everything but the fallback directory is as the table says ----

  lemma ElsewhereStays(cfg: Config, m: Merged, p: Path)
    requires m.node.Dir? && ApplyFallbacks(cfg, m.node, m.fallbacks).Some? && p != []
    requires m.fallbacks != [] ==> p[0] != ApplyFallbacks(cfg, m.node, m.fallbacks).value.rootName
    ensures Find(ApplyFallbacks(cfg, m.node, m.fallbacks).value.node, p) == Find(m.node, p)
  {
    if m.fallbacks != [] {
      var requests, rootName := ChosenRoot(cfg, m.node, m.fallbacks);
      var placed := FillEffects(cfg, m.node, requests, rootName);
      var inner := Filled(cfg, m.node, requests, rootName, placed);
      ReplacedElsewhere(m.node, rootName, inner, p);
    }
  }

  lemma ReplacedElsewhere(root: Node, rootName: Bytes, inner: Slot, p: Path)
    requires root.Dir? && p != [] && p[0] != rootName
    ensures Find(Dir(root.entries[rootName := inner]), p) == Find(root, p)
  {
    assert Get(Dir(root.entries[rootName := inner]), p[0]) == Get(root, p[0]);
  }

  /** The whole merge decides every entry outside its fallback directory by the table. */
  lemma TreesDecide(cfg: Config, base: Node, local: Node, remote: Node, p: Path)
    requires base.Dir? && local.Dir? && remote.Dir? && MergeTrees(cfg, base, local, remote).Some?
    requires p != [] && OnTheWay(local, p) && OnTheWay(remote, p) && Present(base, local, remote, p)
    requires p[0] == MergeTrees(cfg, base, local, remote).value.rootName ==> Merge(cfg, base, local, remote, [], 0).value.fallbacks == []
    ensures Decided(Find(base, p), Find(local, p), Find(remote, p), Find(MergeTrees(cfg, base, local, remote).value.node, p))
  {
    var m := Merge(cfg, base, local, remote, [], 0).value;
    MergeDecides(cfg, base, local, remote, [], 0, p, m);
    ElsewhereStays(cfg, m, p);
  }

  // ---- the fallback directory ----

  /** The directory's time is the latest of its own and those of what it takes. */
  lemma {:induction false} PlacedTime(cfg: Config, rootName: Bytes, requests: seq<Fallback>, taken: set<Bytes>, mtime: nat)
    requires PlaceAll(cfg, rootName, requests, taken, mtime).Some?
    ensures var t := PlaceAll(cfg, rootName, requests, taken, mtime).value.mtime;
            && t >= mtime && (forall f :: f in requests ==> t >= f.slot.mtime)
            && (t == mtime || exists f :: f in requests && t == f.slot.mtime)
  {
    if requests != [] {
      var f := requests[0];
      var name := PlaceFrom(cfg, f.leaf, rootName, taken, 1).value;
      var more := taken + {cfg.rules.fold(name)};
      PlacedTime(cfg, rootName, requests[1..], more, Max(mtime, f.slot.mtime));
      assert requests == [f] + requests[1..];
      var t := PlaceAll(cfg, rootName, requests, taken, mtime).value.mtime;
      assert t == PlaceAll(cfg, rootName, requests[1..], more, Max(mtime, f.slot.mtime)).value.mtime;
    }
  }

  /** A name that cannot serve: something else than a directory has it, or it is taken but for its case. */
  predicate Unusable(rules: Rules, root: Node, name: Bytes)
    requires root.Dir?
  {
    if name in root.entries then root.entries[name].node.File? else exists other :: other in root.entries && rules.fold(other) == rules.fold(name)
  }

  /** The fallback directory has the first numbered name that can serve. */
  lemma {:induction false} FirstUsable(rules: Rules, root: Node, ordinal: nat) returns (k: nat)
    requires root.Dir? && 1 <= ordinal && ChooseRoot(rules, root, FallbackRoot, ordinal).Some?
    ensures ordinal <= k <= MaxOrdinal && ChooseRoot(rules, root, FallbackRoot, ordinal) == Some(FallbackRoot + Suffix(k))
    ensures !Unusable(rules, root, FallbackRoot + Suffix(k)) && forall j {:trigger Suffix(j)} :: ordinal <= j < k ==> Unusable(rules, root, FallbackRoot + Suffix(j))
    decreases MaxOrdinal + 1 - ordinal
  {
    var candidate := FallbackRoot + Suffix(ordinal);
    UsableIsChosen(rules, root, candidate);
    if Unusable(rules, root, candidate) {
      k := FirstUsable(rules, root, ordinal + 1);
    } else {
      k := ordinal;
    }
  }

  lemma UsableIsChosen(rules: Rules, root: Node, name: Bytes)
    requires root.Dir?
    ensures Unusable(rules, root, name) <==> (Get(root, name).Some? && !Get(root, name).value.node.Dir?) || (Get(root, name).None? && rules.fold(name) in Folds(rules, root.entries.Keys))
  {
  }

  /** What was there stays, each request is there under a new name, and nothing else; the time is the latest of all. */
  ghost predicate FilledWith(dir: Slot, inner: Slot, names: seq<Bytes>, requests: seq<Fallback>) {
    && dir.node.Dir? && inner.node.Dir? && |names| == |requests|
    && (forall name :: name in dir.node.entries ==> name in inner.node.entries && inner.node.entries[name] == dir.node.entries[name])
    && (forall i :: 0 <= i < |names| ==> names[i] !in dir.node.entries && names[i] in inner.node.entries && inner.node.entries[names[i]] == requests[i].slot)
    && (forall name :: name in inner.node.entries ==> name in dir.node.entries || name in names)
    && inner.mtime >= dir.mtime && (forall f :: f in requests ==> inner.mtime >= f.slot.mtime)
    && (inner.mtime == dir.mtime || exists f :: f in requests && inner.mtime == f.slot.mtime)
  }

  /** The first numbered name that can serve. */
  ghost predicate FirstThatServes(rules: Rules, root: Node, k: nat)
    requires root.Dir?
  {
    !Unusable(rules, root, FallbackRoot + Suffix(k)) && forall j {:trigger Suffix(j)} :: 1 <= j < k ==> Unusable(rules, root, FallbackRoot + Suffix(j))
  }

  /** What a merge makes of its fallback directory: under the first name that can serve, all that found no place. */
  lemma FallbackDirectory(cfg: Config, base: Node, local: Node, remote: Node)
    returns (m: Merged, dir: Slot, inner: Slot, names: seq<Bytes>, requests: seq<Fallback>, k: nat)
    requires base.Dir? && local.Dir? && remote.Dir? && MergeTrees(cfg, base, local, remote).Some?
    requires Merge(cfg, base, local, remote, [], 0).value.fallbacks != []
    ensures Merge(cfg, base, local, remote, [], 0) == Ok(m) && multiset(requests) == multiset(m.fallbacks)
    ensures 1 <= k && FirstThatServes(cfg.rules, m.node, k) && MergeTrees(cfg, base, local, remote).value.rootName == FallbackRoot + Suffix(k)
    ensures var rootName := FallbackRoot + Suffix(k);
            && dir == (if rootName in m.node.entries then m.node.entries[rootName] else Slot(Dir(map[]), 0))
            && MergeTrees(cfg, base, local, remote).value.node == Dir(m.node.entries[rootName := inner])
    ensures FilledWith(dir, inner, names, requests)
  {
    m := Merge(cfg, base, local, remote, [], 0).value;
    dir, inner, names, requests, k := Fallen(cfg, m);
  }

  lemma Fallen(cfg: Config, m: Merged) returns (dir: Slot, inner: Slot, names: seq<Bytes>, requests: seq<Fallback>, k: nat)
    requires m.node.Dir? && m.fallbacks != [] && ApplyFallbacks(cfg, m.node, m.fallbacks).Some?
    ensures multiset(requests) == multiset(m.fallbacks) && FilledWith(dir, inner, names, requests)
    ensures 1 <= k && FirstThatServes(cfg.rules, m.node, k) && ApplyFallbacks(cfg, m.node, m.fallbacks).value.rootName == FallbackRoot + Suffix(k)
    ensures dir == Existing(m.node, FallbackRoot + Suffix(k))
    ensures ApplyFallbacks(cfg, m.node, m.fallbacks).value.node == Dir(m.node.entries[FallbackRoot + Suffix(k) := inner])
  {
    var rootName;
    requests, rootName := ChosenRoot(cfg, m.node, m.fallbacks);
    SortSorts(SourceKey, m.fallbacks);
    k := FirstUsable(cfg.rules, m.node, 1);
    dir := Existing(m.node, rootName);
    inner, names := FilledEntries(cfg, m.node, requests, rootName);
  }

  lemma FilledEntries(cfg: Config, root: Node, requests: seq<Fallback>, rootName: Bytes) returns (inner: Slot, names: seq<Bytes>)
    requires root.Dir? && Existing(root, rootName).node.Dir? && FillRoot(cfg, root, requests, rootName).Some?
    ensures FillRoot(cfg, root, requests, rootName).value.node == Dir(root.entries[rootName := inner])
    ensures FilledWith(Existing(root, rootName), inner, names, requests)
  {
    var dir := Existing(root, rootName);
    var taken := Folds(cfg.rules, dir.node.entries.Keys);
    var placed := FillEffects(cfg, root, requests, rootName);
    var list := EntriesOf(dir.node) + placed.entries;
    inner := Slot(Dir(MapOf(Sort(NameOf, list))), placed.mtime);
    ListMakes(cfg.rules, list);
    PlacedTime(cfg, rootName, requests, taken, dir.mtime);
    names := ListFills(cfg, rootName, requests, dir, placed, inner);
  }

  lemma ListFills(cfg: Config, rootName: Bytes, requests: seq<Fallback>, dir: Slot, placed: Placed, inner: Slot) returns (names: seq<Bytes>)
    requires dir.node.Dir? && PlacedAs(cfg, rootName, requests, Folds(cfg.rules, dir.node.entries.Keys), placed)
    requires Makes(EntriesOf(dir.node) + placed.entries, inner.node)
    requires inner.mtime >= dir.mtime && (forall f :: f in requests ==> inner.mtime >= f.slot.mtime)
    requires inner.mtime == dir.mtime || exists f :: f in requests && inner.mtime == f.slot.mtime
    ensures FilledWith(dir, inner, names, requests)
  {
    var list := EntriesOf(dir.node) + placed.entries;
    EntriesOfMakes(dir.node);
    names := seq(|placed.entries|, i requires 0 <= i < |placed.entries| => placed.entries[i].name);
    assert forall name :: name in dir.node.entries ==> cfg.rules.fold(name) in Folds(cfg.rules, dir.node.entries.Keys);
    forall i | 0 <= i < |names|
      ensures names[i] !in dir.node.entries && names[i] in inner.node.entries && inner.node.entries[names[i]] == requests[i].slot
    {
      assert placed.entries[i] in list;
    }
    ListEntries(dir.node, placed, list, inner.node, names);
  }

  lemma ListEntries(dir: Node, placed: Placed, list: seq<Entry>, inner: Node, names: seq<Bytes>)
    requires dir.Dir? && Makes(EntriesOf(dir), dir) && Makes(list, inner) && list == EntriesOf(dir) + placed.entries
    requires |names| == |placed.entries| && forall i :: 0 <= i < |names| ==> names[i] == placed.entries[i].name
    ensures forall name :: name in dir.entries ==> name in inner.entries && inner.entries[name] == dir.entries[name]
    ensures forall name :: name in inner.entries ==> name in dir.entries || name in names
  {
    forall name | name in dir.entries
      ensures name in inner.entries && inner.entries[name] == dir.entries[name]
    {
      assert Entry(name, dir.entries[name]) in list;
    }
    forall name | name in inner.entries
      ensures name in dir.entries || name in names
    {
      var e := Entry(name, inner.entries[name]);
      if e !in EntriesOf(dir) {
        var i :| 0 <= i < |placed.entries| && placed.entries[i] == e;
        assert names[i] == name;
      }
    }
  }

  // ---- a merge, for those who only see the trees ----

  /**
    The result has what both sides made of their common base: Remote's changes in place, Local's in
    place or set apart in a conflict, and every entry outside a fallback directory as the table says.
   */
  ghost predicate BothKept(base: Node, local: Node, remote: Node, result: Node) {
    && (forall p, c :: FileAt(remote, p, c) && !Untouched(base, remote, p) ==> FileAt(result, p, c))
    && (forall p, c :: FileAt(local, p, c) && !Untouched(base, local, p) ==> exists t {:trigger KeptAt(base, local, remote, result, p, c, t)} :: KeptAt(base, local, remote, result, p, c, t))
    && (forall p {:trigger Present(base, local, remote, p)} :: p != [] && !(FallbackRoot <= p[0]) && OnTheWay(local, p) && OnTheWay(remote, p) && Present(base, local, remote, p) ==>
          Decided(Find(base, p), Find(local, p), Find(remote, p), Find(result, p)))
  }

  lemma MergeKeepsBoth(cfg: Config, base: Node, local: Node, remote: Node)
    requires base.Dir? && local.Dir? && remote.Dir? && MergeTrees(cfg, base, local, remote).Some?
    ensures BothKept(base, local, remote, MergeTrees(cfg, base, local, remote).value.node)
  {
    var result, m := MergeTrees(cfg, base, local, remote).value, Merge(cfg, base, local, remote, [], 0).value;
    forall p, c | FileAt(remote, p, c) && !Untouched(base, remote, p)
      ensures FileAt(result.node, p, c)
    {
      NoRemoteEditLost(cfg, base, local, remote, p, c);
    }
    forall p, c | FileAt(local, p, c) && !Untouched(base, local, p)
      ensures exists t {:trigger KeptAt(base, local, remote, result.node, p, c, t)} :: KeptAt(base, local, remote, result.node, p, c, t)
    {
      var t := LocalFileGoes(cfg, base, local, remote, p, c);
    }
    forall p | p != [] && !(FallbackRoot <= p[0]) && OnTheWay(local, p) && OnTheWay(remote, p) && Present(base, local, remote, p)
      ensures Decided(Find(base, p), Find(local, p), Find(remote, p), Find(result.node, p))
    {
      if m.fallbacks != [] {
        var requests, rootName := ChosenRoot(cfg, m.node, m.fallbacks);
        var k := ChosenName(cfg.rules, m.node, 1);
      }
      TreesDecide(cfg, base, local, remote, p);
    }
  }
}
