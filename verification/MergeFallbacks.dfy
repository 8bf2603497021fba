/** The fallback directory for Local entries that found no place, and files followed over whole merges. */
module MergeFallbacks {
  import opened Wrappers
  import opened Bytes
  import opened Text
  import opened Sorting
  import opened ConflictNames
  import opened Trees
  import opened TreeMerge
  import opened MergeLaws
  import opened MergeFates
  import opened MergeTracks
  import opened MergeRequests
  import Paths

  function Folds(rules: Rules, names: set<Bytes>): set<Bytes> {
    set name | name in names :: rules.fold(name)
  }

  /** The fallback directory: an existing directory of that name, or the first free numbered name. */
  function ChooseRoot(rules: Rules, root: Node, first: Bytes, ordinal: nat): Option<Bytes>
    requires root.Dir?
    decreases MaxOrdinal + 1 - ordinal
  {
    if ordinal > MaxOrdinal then None
    else
      var candidate := first + Suffix(ordinal);
      var existing := Get(root, candidate);
      if existing.Some? then (if existing.value.node.Dir? then Some(candidate) else ChooseRoot(rules, root, first, ordinal + 1))
      else if rules.fold(candidate) in Folds(rules, root.entries.Keys) then ChooseRoot(rules, root, first, ordinal + 1)
      else Some(candidate)
  }

  /** The first numbered name that is free in the fallback directory and outside the tree. */
  function PlaceFrom(cfg: Config, leaf: Bytes, rootName: Bytes, taken: set<Bytes>, ordinal: nat): Option<Bytes>
    decreases MaxOrdinal + 1 - ordinal
  {
    if ordinal > MaxOrdinal then None
    else
      var name := FallbackName(cfg.rules, leaf, rootName, cfg.seedId, ordinal);
      if name.None? then None
      else if cfg.rules.fold(name.value) !in taken && !cfg.busy(name.value) then name
      else PlaceFrom(cfg, leaf, rootName, taken, ordinal + 1)
  }

  datatype Placed = Placed(entries: seq<Entry>, effects: seq<Effect>, mtime: nat)

  function PlaceAll(cfg: Config, rootName: Bytes, requests: seq<Fallback>, taken: set<Bytes>, mtime: nat): Option<Placed> {
    if requests == [] then Some(Placed([], [], mtime))
    else
      var f := requests[0];
      var name := PlaceFrom(cfg, f.leaf, rootName, taken, 1);
      if name.None? then None
      else
        var rest := PlaceAll(cfg, rootName, requests[1..], taken + {cfg.rules.fold(name.value)}, Max(mtime, f.slot.mtime));
        if rest.None? then None
        else Some(Placed([Entry(name.value, f.slot)] + rest.value.entries,
                         [Move(f.source, [rootName, name.value])] + rest.value.effects, rest.value.mtime))
  }

  /** The entries of a directory, in order. */
  ghost function EntriesOf(n: Node): seq<Entry>
    requires n.Dir?
  {
    Picked(n, Ordered(n.entries.Keys))
  }

  lemma EntriesOfMakes(n: Node)
    requires n.Dir?
    ensures Makes(EntriesOf(n), n)
  {
    OrderedNames(n.entries.Keys);
    forall e
      ensures e in EntriesOf(n) <==> e.name in Ordered(n.entries.Keys) && Get(n, e.name) == Some(e.slot)
    {
      PickedMembers(n, Ordered(n.entries.Keys), e);
    }
  }

  function SourceKey(f: Fallback): Bytes {
    Paths.Join(f.source)
  }

  datatype Final = Final(node: Node, effects: seq<Effect>, rootName: Bytes)

  function Existing(root: Node, rootName: Bytes): (s: Slot)
    requires root.Dir?
    ensures Get(root, rootName).None? || Get(root, rootName).value.node.Dir? ==> s.node.Dir?
  {
    if Get(root, rootName).Some? then Get(root, rootName).value else Slot(EmptyDir, 0)
  }

  ghost function ApplyFallbacks(cfg: Config, root: Node, fallbacks: seq<Fallback>): Option<Final>
    requires root.Dir?
  {
    if fallbacks == [] then Some(Final(root, [], []))
    else if !ValidId(cfg.seedId) then None
    else
      var rootName := ChooseRoot(cfg.rules, root, FallbackRoot, 1);
      if rootName.None? then None
      else
        ChosenIsDir(cfg.rules, root, FallbackRoot, 1);
        FillRoot(cfg, root, Sort(SourceKey, fallbacks), rootName.value)
  }

  lemma {:induction false} ChosenIsDir(rules: Rules, root: Node, first: Bytes, ordinal: nat)
    requires root.Dir? && ChooseRoot(rules, root, first, ordinal).Some?
    ensures Existing(root, ChooseRoot(rules, root, first, ordinal).value).node.Dir?
    ensures var name := ChooseRoot(rules, root, first, ordinal).value;
            name in root.entries || rules.fold(name) !in Folds(rules, root.entries.Keys)
    decreases MaxOrdinal + 1 - ordinal
  {
    var candidate := first + Suffix(ordinal);
    var existing := Get(root, candidate);
    if (existing.Some? && !existing.value.node.Dir?) || (existing.None? && rules.fold(candidate) in Folds(rules, root.entries.Keys)) {
      ChosenIsDir(rules, root, first, ordinal + 1);
    }
  }

  ghost function FillRoot(cfg: Config, root: Node, requests: seq<Fallback>, rootName: Bytes): Option<Final>
    requires root.Dir? && Existing(root, rootName).node.Dir?
  {
    var dir := Existing(root, rootName);
    var placed := PlaceAll(cfg, rootName, requests, Folds(cfg.rules, dir.node.entries.Keys), dir.mtime);
    if placed.None? then None
    else
      var entries := Sort(NameOf, EntriesOf(dir.node) + placed.value.entries);
      if !CanonicalList(cfg.rules, entries) then None
      else
        var filled := Dir(root.entries[rootName := Slot(Dir(MapOf(entries)), placed.value.mtime)]);
        if !CanonicalList(cfg.rules, Sort(NameOf, EntriesOf(filled))) then None
        else Some(Final(filled, placed.value.effects, rootName))
  }

  // ---- what the placed requests hold ----

  lemma {:induction false} PlacedIsFree(cfg: Config, leaf: Bytes, rootName: Bytes, taken: set<Bytes>, ordinal: nat)
    requires PlaceFrom(cfg, leaf, rootName, taken, ordinal).Some?
    ensures var name := PlaceFrom(cfg, leaf, rootName, taken, ordinal).value;
            cfg.rules.fold(name) !in taken && !cfg.busy(name) && cfg.rules.validName(name)
    decreases MaxOrdinal + 1 - ordinal
  {
    var name := FallbackName(cfg.rules, leaf, rootName, cfg.seedId, ordinal);
    if cfg.rules.fold(name.value) in taken || cfg.busy(name.value) {
      PlacedIsFree(cfg, leaf, rootName, taken, ordinal + 1);
    }
  }

  /** Every request has its entry and its move, in order; all names are new and distinct. */
  ghost predicate PlacedAs(cfg: Config, rootName: Bytes, requests: seq<Fallback>, taken: set<Bytes>, placed: Placed) {
    && |placed.entries| == |placed.effects| == |requests|
    && (forall i :: 0 <= i < |requests| ==>
          placed.entries[i].slot == requests[i].slot && cfg.rules.validName(placed.entries[i].name) &&
          placed.effects[i] == Move(requests[i].source, [rootName, placed.entries[i].name]) &&
          cfg.rules.fold(placed.entries[i].name) !in taken)
    && (forall i, j :: 0 <= i < j < |requests| ==> cfg.rules.fold(placed.entries[i].name) != cfg.rules.fold(placed.entries[j].name))
  }

  lemma {:induction false} PlaceAllPlaces(cfg: Config, rootName: Bytes, requests: seq<Fallback>, taken: set<Bytes>, mtime: nat)
    requires PlaceAll(cfg, rootName, requests, taken, mtime).Some?
    ensures PlacedAs(cfg, rootName, requests, taken, PlaceAll(cfg, rootName, requests, taken, mtime).value)
  {
    if requests != [] {
      var f := requests[0];
      var name := PlaceFrom(cfg, f.leaf, rootName, taken, 1).value;
      PlacedIsFree(cfg, f.leaf, rootName, taken, 1);
      var more := taken + {cfg.rules.fold(name)};
      PlaceAllPlaces(cfg, rootName, requests[1..], more, Max(mtime, f.slot.mtime));
      var rest := PlaceAll(cfg, rootName, requests[1..], more, Max(mtime, f.slot.mtime)).value;
      var all := PlaceAll(cfg, rootName, requests, taken, mtime).value;
      assert all.entries == [Entry(name, f.slot)] + rest.entries;
      assert all.effects == [Move(f.source, [rootName, name])] + rest.effects;
      forall i | 1 <= i < |requests|
        ensures requests[i] == requests[1..][i - 1] && all.entries[i] == rest.entries[i - 1] && all.effects[i] == rest.effects[i - 1]
        ensures cfg.rules.fold(all.entries[i].name) !in more
      {
      }
    }
  }

  // ---- following files into the fallback directory ----

  /** A target that no request covers stays where it is. */
  lemma {:induction false} FollowUncovered(effects: seq<Effect>, target: Path)
    requires forall e :: e in effects ==> e.Move? && !(e.path <= target)
    ensures Follow(effects, target) == Some(target)
  {
    if effects != [] {
      assert effects[0] in effects;
      FollowUncovered(effects[1..], target);
    }
  }

  /** A target that one request covers goes with it, and stays there when no later request covers the new place. */
  lemma {:induction false} FollowCovered(effects: seq<Effect>, i: nat, target: Path)
    requires i < |effects| && effects[i].Move? && effects[i].path <= target
    requires forall j :: 0 <= j < |effects| && j != i ==> effects[j].Move? && !(effects[j].path <= target)
    requires forall j :: i < j < |effects| ==> !(effects[j].path <= effects[i].target + target[|effects[i].path|..])
    ensures Follow(effects, target) == Some(effects[i].target + target[|effects[i].path|..])
  {
    var e := effects[0];
    if i == 0 {
      forall x | x in effects[1..]
        ensures x.Move? && !(x.path <= effects[i].target + target[|effects[i].path|..])
      {
        var j :| 0 <= j < |effects[1..]| && effects[1..][j] == x;
        assert effects[j + 1] == x;
      }
      FollowUncovered(effects[1..], e.target + target[|e.path|..]);
    } else {
      forall j | 0 <= j < |effects[1..]|
        ensures effects[1..][j] == effects[j + 1]
      {
      }
      FollowCovered(effects[1..], i - 1, target);
    }
  }

  // ---- the whole merge ----

  /** Merging the roots and then making room for what found no place. */
  ghost function MergeTrees(cfg: Config, base: Node, local: Node, remote: Node): Option<Final>
    requires base.Dir? && local.Dir? && remote.Dir?
  {
    var merged := Merge(cfg, base, local, remote, [], 0);
    if merged.Err? then None
    else
      var final := ApplyFallbacks(cfg, merged.value.node, merged.value.fallbacks);
      if final.None? then None
      else Some(Final(final.value.node, merged.value.effects + final.value.effects, final.value.rootName))
  }

  /** Request j is for a place that request i was given before, where there is a file of request i. */
  predicate TakenFrom(requests: seq<Fallback>, effects: seq<Effect>, i: nat, j: nat, rest: Path, c: nat) {
    i < j < |requests| == |effects| && effects[i].Move? && HoldsFile(requests[i].slot.node, rest, c) && requests[j].source <= effects[i].target + rest
  }

  ghost predicate RetakenIn(requests: seq<Fallback>, effects: seq<Effect>) {
    exists i: nat, j: nat, rest: Path, c: nat :: TakenFrom(requests, effects, i, j, rest, c)
  }

  /** Some request is for a place in the fallback directory that the merge has just given to another. */
  ghost predicate Retaken(cfg: Config, base: Node, local: Node, remote: Node)
    requires base.Dir? && local.Dir? && remote.Dir? && MergeTrees(cfg, base, local, remote).Some?
  {
    var m := Merge(cfg, base, local, remote, [], 0).value;
    m.fallbacks != [] && RetakenIn(Sort(SourceKey, m.fallbacks), ApplyFallbacks(cfg, m.node, m.fallbacks).value.effects)
  }

  lemma SortedAntichain(fallbacks: seq<Fallback>)
    requires Antichain(fallbacks)
    ensures Antichain(Sort(SourceKey, fallbacks))
  {
    var sorted := Sort(SourceKey, fallbacks);
    SortSorts(SourceKey, fallbacks);
    forall i, j | 0 <= i < |sorted| && 0 <= j < |sorted| && i != j
      ensures !(sorted[i].source <= sorted[j].source)
    {
      SortMembers(SourceKey, fallbacks, sorted[i]);
      SortMembers(SourceKey, fallbacks, sorted[j]);
      var k :| 0 <= k < |fallbacks| && fallbacks[k] == sorted[i];
      var l :| 0 <= l < |fallbacks| && fallbacks[l] == sorted[j];
      if sorted[i] == sorted[j] {
        k, l := PermutedTwice(fallbacks, sorted, if i < j then i else j, if i < j then j else i);
      }
      assert !(fallbacks[k].source <= fallbacks[l].source);
    }
  }

  /** How the tree with the filled fallback directory is made. */
  lemma Filled(cfg: Config, root: Node, requests: seq<Fallback>, rootName: Bytes, placed: Placed) returns (inner: Slot)
    requires root.Dir? && Existing(root, rootName).node.Dir? && FillRoot(cfg, root, requests, rootName).Some?
    requires var dir := Existing(root, rootName);
             PlaceAll(cfg, rootName, requests, Folds(cfg.rules, dir.node.entries.Keys), dir.mtime) == Some(placed)
    ensures FillRoot(cfg, root, requests, rootName).value.node == Dir(root.entries[rootName := inner])
    ensures Makes(EntriesOf(Existing(root, rootName).node) + placed.entries, inner.node)
  {
    var list := EntriesOf(Existing(root, rootName).node) + placed.entries;
    inner := Slot(Dir(MapOf(Sort(NameOf, list))), placed.mtime);
    ListMakes(cfg.rules, list);
  }

  lemma KeepsReplaced(root: Node, rootName: Bytes, dir: Node, list: seq<Entry>, inner: Slot, q: Path, c: nat)
    requires root.Dir? && dir.Dir? && FileAt(root, q, c) && (q[0] == rootName ==> Get(root, rootName).value.node == dir)
    requires Makes(EntriesOf(dir), dir) && Makes(list, inner.node) && EntriesOf(dir) <= list
    ensures FileAt(Dir(root.entries[rootName := inner]), q, c)
  {
    if q[0] == rootName {
      InnerKeeps(dir, list, inner.node, q[1..], c);
    }
  }

  /** What was in the tree is still there. */
  lemma FilledKeeps(cfg: Config, root: Node, requests: seq<Fallback>, rootName: Bytes, q: Path, c: nat)
    requires root.Dir? && Existing(root, rootName).node.Dir? && FillRoot(cfg, root, requests, rootName).Some?
    requires FileAt(root, q, c)
    ensures FileAt(FillRoot(cfg, root, requests, rootName).value.node, q, c)
  {
    var placed := FillEffects(cfg, root, requests, rootName);
    var inner := Filled(cfg, root, requests, rootName, placed);
    var dir := Existing(root, rootName).node;
    EntriesOfMakes(dir);
    KeepsReplaced(root, rootName, dir, EntriesOf(dir) + placed.entries, inner, q, c);
  }

  lemma HoldsReplaced(root: Node, rootName: Bytes, list: seq<Entry>, inner: Slot, e: Entry, rest: Path, c: nat)
    requires root.Dir? && Makes(list, inner.node) && e in list && HoldsFile(e.slot.node, rest, c)
    ensures FileAt(Dir(root.entries[rootName := inner]), [rootName, e.name] + rest, c)
  {
    var q := [rootName, e.name] + rest;
    assert q[1..] == [e.name] + rest && q[1..][1..] == rest;
    assert FileAt(inner.node, q[1..], c);
  }

  /** Every request is in the fallback directory, with all that is below it. */
  lemma FilledHolds(cfg: Config, root: Node, requests: seq<Fallback>, rootName: Bytes, placed: Placed, i: nat, rest: Path, c: nat)
    requires root.Dir? && Existing(root, rootName).node.Dir? && FillRoot(cfg, root, requests, rootName).Some?
    requires var dir := Existing(root, rootName);
             PlaceAll(cfg, rootName, requests, Folds(cfg.rules, dir.node.entries.Keys), dir.mtime) == Some(placed)
    requires i < |placed.entries| && HoldsFile(placed.entries[i].slot.node, rest, c)
    ensures FileAt(FillRoot(cfg, root, requests, rootName).value.node, [rootName, placed.entries[i].name] + rest, c)
  {
    var inner := Filled(cfg, root, requests, rootName, placed);
    var list := EntriesOf(Existing(root, rootName).node) + placed.entries;
    assert list[|EntriesOf(Existing(root, rootName).node)| + i] == placed.entries[i];
    HoldsReplaced(root, rootName, list, inner, placed.entries[i], rest, c);
  }

  lemma InnerKeeps(dir: Node, list: seq<Entry>, inner: Node, q: Path, c: nat)
    requires dir.Dir? && Makes(EntriesOf(dir), dir) && Makes(list, inner) && EntriesOf(dir) <= list && FileAt(dir, q, c)
    ensures FileAt(inner, q, c)
  {
    var e := Entry(q[0], dir.entries[q[0]]);
    assert e in EntriesOf(dir);
    assert e in list[..|EntriesOf(dir)|];
    assert e in list;
  }

  /** Where a file is after the requests were placed. */
  ghost predicate Settles(final: Final, root: Node, fallbacks: seq<Fallback>, target: Path, content: nat) {
    Follow(final.effects, target).Some? && FileAt(final.node, Follow(final.effects, target).value, content)
  }

  lemma ChosenRoot(cfg: Config, root: Node, fallbacks: seq<Fallback>) returns (requests: seq<Fallback>, rootName: Bytes)
    requires root.Dir? && fallbacks != [] && ApplyFallbacks(cfg, root, fallbacks).Some?
    ensures requests == Sort(SourceKey, fallbacks) && rootName == ApplyFallbacks(cfg, root, fallbacks).value.rootName
    ensures Existing(root, rootName).node.Dir? && ApplyFallbacks(cfg, root, fallbacks) == FillRoot(cfg, root, requests, rootName)
    ensures Get(root, rootName).Some? ==> Get(root, rootName).value.node.Dir?
  {
    requests := Sort(SourceKey, fallbacks);
    rootName := ChooseRoot(cfg.rules, root, FallbackRoot, 1).value;
    ChosenIsDir(cfg.rules, root, FallbackRoot, 1);
  }

  /** The effects of placing the requests, one by one. */
  lemma FillEffects(cfg: Config, root: Node, requests: seq<Fallback>, rootName: Bytes) returns (placed: Placed)
    requires root.Dir? && Existing(root, rootName).node.Dir? && FillRoot(cfg, root, requests, rootName).Some?
    ensures var dir := Existing(root, rootName); var taken := Folds(cfg.rules, dir.node.entries.Keys);
            PlaceAll(cfg, rootName, requests, taken, dir.mtime) == Some(placed) && PlacedAs(cfg, rootName, requests, taken, placed)
    ensures FillRoot(cfg, root, requests, rootName).value.effects == placed.effects
  {
    var dir := Existing(root, rootName);
    var taken := Folds(cfg.rules, dir.node.entries.Keys);
    placed := PlaceAll(cfg, rootName, requests, taken, dir.mtime).value;
    PlaceAllPlaces(cfg, rootName, requests, taken, dir.mtime);
  }

  lemma UncoveredStays(cfg: Config, requests: seq<Fallback>, rootName: Bytes, taken: set<Bytes>, placed: Placed, target: Path)
    requires PlacedAs(cfg, rootName, requests, taken, placed) && forall f :: f in requests ==> !(f.source <= target)
    ensures Follow(placed.effects, target) == Some(target)
  {
    forall e | e in placed.effects
      ensures e.Move? && !(e.path <= target)
    {
      var i :| 0 <= i < |placed.effects| && placed.effects[i] == e;
      assert requests[i] in requests;
    }
    FollowUncovered(placed.effects, target);
  }

  lemma CoveredMoves(cfg: Config, requests: seq<Fallback>, rootName: Bytes, taken: set<Bytes>, placed: Placed, i: nat, target: Path, c: nat)
    requires PlacedAs(cfg, rootName, requests, taken, placed) && i < |requests| && Carries(requests[i], target, c)
    requires Antichain(requests) && !RetakenIn(requests, placed.effects)
    ensures Follow(placed.effects, target) == Some([rootName, placed.entries[i].name] + target[|requests[i].source|..])
  {
    forall j | 0 <= j < |requests| && j != i
      ensures placed.effects[j].Move? && !(placed.effects[j].path <= target)
    {
      BothPrefixes(requests[i].source, requests[j].source, target);
      assert !(requests[i].source <= requests[j].source) && !(requests[j].source <= requests[i].source);
    }
    forall j | i < j < |requests|
      ensures !(placed.effects[j].path <= placed.effects[i].target + target[|requests[i].source|..])
    {
      assert !TakenFrom(requests, placed.effects, i, j, target[|requests[i].source|..], c);
    }
    FollowCovered(placed.effects, i, target);
  }

  lemma BothPrefixes(a: Path, b: Path, t: Path)
    requires a <= t
    ensures b <= t ==> a <= b || b <= a
  {
  }

  /** A file in the tree that no request takes, or one that a request carries. */
  ghost predicate Known(root: Node, requests: seq<Fallback>, t: Path, c: nat) {
    (FileAt(root, t, c) && forall f :: f in requests ==> !(f.source <= t)) || Waiting(requests, t, c)
  }

  /** What the fate of a Local file says at the root. */
  lemma FateAtRoot(base: Node, local: Node, m: Merged, p: Path, c: nat)
    requires MergedFate(base, local, m, [], p, c)
    ensures match Follow(m.effects, p)
            case None => Untouched(base, local, p)
            case Some(t) => Known(m.node, m.fallbacks, t, c) && (Waiting(m.fallbacks, t, c) ==> t == p || FileAt(m.node, t, c))
  {
    assert [] + p == p;
    var t := Follow(m.effects, p);
    if t.Some? {
      assert t.value[0..] == t.value;
    }
  }

  /** After the merge proper, a file that is still followed is in the tree or with a request. */
  lemma FollowedIsKnown(cfg: Config, base: Node, local: Node, remote: Node, p: Path, c: nat, m: Merged)
    requires base.Dir? && local.Dir? && remote.Dir? && FileAt(local, p, c) && Merge(cfg, base, local, remote, [], 0) == Ok(m)
    ensures match Follow(m.effects, p)
            case None => Untouched(base, local, p)
            case Some(t) => Known(m.node, m.fallbacks, t, c) && (Waiting(m.fallbacks, t, c) ==> t == p || FileAt(m.node, t, c))
  {
    MergeFate(cfg, base, local, remote, [], 0, p, c);
    FateAtRoot(base, local, m, p, c);
  }

  /**
    No Local edit is lost over the whole merge, conflict copies and fallback directory included:
    each Local file is, with its content, where it can be followed to, unless Local had not touched it.
   */
  lemma NoLocalEditLost(cfg: Config, base: Node, local: Node, remote: Node, p: Path, content: nat)
    requires base.Dir? && local.Dir? && remote.Dir? && FileAt(local, p, content) && MergeTrees(cfg, base, local, remote).Some?
    requires !Retaken(cfg, base, local, remote)
    ensures var final := MergeTrees(cfg, base, local, remote).value;
            match Follow(final.effects, p)
            case None => Untouched(base, local, p)
            case Some(t) => FileAt(final.node, t, content)
  {
    var m := Merge(cfg, base, local, remote, [], 0).value;
    var final := ApplyFallbacks(cfg, m.node, m.fallbacks).value;
    FollowedIsKnown(cfg, base, local, remote, p, content, m);
    FollowAppend(m.effects, final.effects, p);
    var t := Follow(m.effects, p);
    if t.Some? && m.fallbacks != [] {
      MergeAntichain(cfg, base, local, remote, [], 0, m);
      PlacedFate(cfg, m, t.value, content);
    }
  }

  lemma SameRequests(fallbacks: seq<Fallback>)
    requires Antichain(fallbacks)
    ensures var requests := Sort(SourceKey, fallbacks);
            Antichain(requests) && forall f :: f in fallbacks <==> f in requests
  {
    SortedAntichain(fallbacks);
    forall f
      ensures f in fallbacks <==> f in Sort(SourceKey, fallbacks)
    {
      SortMembers(SourceKey, fallbacks, f);
    }
  }

  lemma KnownSorted(root: Node, fallbacks: seq<Fallback>, t: Path, c: nat)
    requires Known(root, fallbacks, t, c)
    ensures Known(root, Sort(SourceKey, fallbacks), t, c)
  {
    forall f
      ensures f in fallbacks <==> f in Sort(SourceKey, fallbacks)
    {
      SortMembers(SourceKey, fallbacks, f);
    }
  }

  lemma PlacedFate(cfg: Config, m: Merged, t: Path, content: nat)
    requires m.node.Dir? && m.fallbacks != [] && ApplyFallbacks(cfg, m.node, m.fallbacks).Some? && Antichain(m.fallbacks)
    requires !RetakenIn(Sort(SourceKey, m.fallbacks), ApplyFallbacks(cfg, m.node, m.fallbacks).value.effects)
    requires Known(m.node, m.fallbacks, t, content)
    ensures Settles(ApplyFallbacks(cfg, m.node, m.fallbacks).value, m.node, m.fallbacks, t, content)
  {
    var requests, rootName := ChosenRoot(cfg, m.node, m.fallbacks);
    SameRequests(m.fallbacks);
    KnownSorted(m.node, m.fallbacks, t, content);
    KnownFate(cfg, m.node, requests, rootName, t, content);
  }

  lemma KnownFate(cfg: Config, root: Node, requests: seq<Fallback>, rootName: Bytes, t: Path, content: nat)
    requires root.Dir? && Existing(root, rootName).node.Dir? && FillRoot(cfg, root, requests, rootName).Some?
    requires Antichain(requests) && !RetakenIn(requests, FillRoot(cfg, root, requests, rootName).value.effects) && Known(root, requests, t, content)
    ensures Settles(FillRoot(cfg, root, requests, rootName).value, root, requests, t, content)
  {
    if Waiting(requests, t, content) {
      var f :| f in requests && Carries(f, t, content);
      var i :| 0 <= i < |requests| && requests[i] == f;
      CarriedSettles(cfg, root, requests, rootName, i, t, content);
    } else {
      FilledKeeps(cfg, root, requests, rootName, t, content);
      StaysSettled(cfg, root, requests, rootName, t);
    }
  }

  lemma StaysSettled(cfg: Config, root: Node, requests: seq<Fallback>, rootName: Bytes, t: Path)
    requires root.Dir? && Existing(root, rootName).node.Dir? && FillRoot(cfg, root, requests, rootName).Some?
    requires forall f :: f in requests ==> !(f.source <= t)
    ensures Follow(FillRoot(cfg, root, requests, rootName).value.effects, t) == Some(t)
  {
    var placed := FillEffects(cfg, root, requests, rootName);
    UncoveredStays(cfg, requests, rootName, Folds(cfg.rules, Existing(root, rootName).node.entries.Keys), placed, t);
  }

  lemma CarriedSettles(cfg: Config, root: Node, requests: seq<Fallback>, rootName: Bytes, i: nat, t: Path, content: nat)
    requires root.Dir? && Existing(root, rootName).node.Dir? && FillRoot(cfg, root, requests, rootName).Some?
    requires Antichain(requests) && !RetakenIn(requests, FillRoot(cfg, root, requests, rootName).value.effects)
    requires i < |requests| && Carries(requests[i], t, content)
    ensures var final := FillRoot(cfg, root, requests, rootName).value;
            Follow(final.effects, t).Some? && FileAt(final.node, Follow(final.effects, t).value, content)
  {
    var placed := FillEffects(cfg, root, requests, rootName);
    var taken := Folds(cfg.rules, Existing(root, rootName).node.entries.Keys);
    CoveredMoves(cfg, requests, rootName, taken, placed, i, t, content);
    FilledHolds(cfg, root, requests, rootName, placed, i, t[|requests[i].source|..], content);
  }

  /**
    No Local edit is lost over the whole merge, whatever the fallback directory is asked to take: each
    Local file that Local touched is in the result with its content, where the merge moved it, or at
    the place that a request which carries it was given in the fallback directory.
   */
  lemma NoLocalContentLost(cfg: Config, base: Node, local: Node, remote: Node, p: Path, content: nat) returns (t: Path)
    requires base.Dir? && local.Dir? && remote.Dir? && FileAt(local, p, content) && !Untouched(base, local, p)
    requires MergeTrees(cfg, base, local, remote).Some?
    ensures FileAt(MergeTrees(cfg, base, local, remote).value.node, t, content)
    ensures var m, rootName := Merge(cfg, base, local, remote, [], 0).value, MergeTrees(cfg, base, local, remote).value.rootName;
            || (Follow(m.effects, p) == Some(t) && |t| == |p|)
            || exists f, name :: f in m.fallbacks && f.source <= p && t == [rootName, name] + p[|f.source|..]
  {
    var m := Merge(cfg, base, local, remote, [], 0).value;
    FollowedIsKnown(cfg, base, local, remote, p, content, m);
    MergeSorted(cfg, base, local, remote, [], 0, m);
    FollowKeepsDepth(m.effects, p);
    t := Follow(m.effects, p).value;
    if m.fallbacks != [] {
      t := KeptInFallbacks(cfg, m, p, t, content);
    }
  }

  lemma KeptInFallbacks(cfg: Config, m: Merged, p: Path, t: Path, content: nat) returns (now: Path)
    requires m.node.Dir? && m.fallbacks != [] && ApplyFallbacks(cfg, m.node, m.fallbacks).Some?
    requires Known(m.node, m.fallbacks, t, content) && (Waiting(m.fallbacks, t, content) ==> t == p || FileAt(m.node, t, content))
    ensures var final := ApplyFallbacks(cfg, m.node, m.fallbacks).value;
            && FileAt(final.node, now, content)
            && (now == t || exists f, name :: f in m.fallbacks && f.source <= p && now == [final.rootName, name] + p[|f.source|..])
  {
    var requests, rootName := ChosenRoot(cfg, m.node, m.fallbacks);
    if FileAt(m.node, t, content) {
      now := t;
      FilledKeeps(cfg, m.node, requests, rootName, t, content);
    } else {
      now := CarriedIsKept(cfg, m, requests, rootName, p, content);
    }
  }

  lemma CarriedIsKept(cfg: Config, m: Merged, requests: seq<Fallback>, rootName: Bytes, p: Path, content: nat) returns (t: Path)
    requires m.node.Dir? && Existing(m.node, rootName).node.Dir? && FillRoot(cfg, m.node, requests, rootName).Some?
    requires requests == Sort(SourceKey, m.fallbacks) && Waiting(m.fallbacks, p, content)
    ensures FileAt(FillRoot(cfg, m.node, requests, rootName).value.node, t, content)
    ensures exists f, name :: f in m.fallbacks && f.source <= p && t == [rootName, name] + p[|f.source|..]
  {
    var f :| f in m.fallbacks && Carries(f, p, content);
    SortMembers(SourceKey, m.fallbacks, f);
    var i :| 0 <= i < |requests| && requests[i] == f;
    var placed := FillEffects(cfg, m.node, requests, rootName);
    t := [rootName, placed.entries[i].name] + p[|f.source|..];
    FilledHolds(cfg, m.node, requests, rootName, placed, i, p[|f.source|..], content);
  }

  /** No Remote edit is lost over the whole merge: Remote's files are at their own paths. */
  lemma NoRemoteEditLost(cfg: Config, base: Node, local: Node, remote: Node, p: Path, content: nat)
    requires base.Dir? && local.Dir? && remote.Dir? && FileAt(remote, p, content) && !Untouched(base, remote, p)
    requires MergeTrees(cfg, base, local, remote).Some?
    ensures FileAt(MergeTrees(cfg, base, local, remote).value.node, p, content)
  {
    var m := Merge(cfg, base, local, remote, [], 0).value;
    MergeKeepsRemote(cfg, base, local, remote, [], 0, p, content);
    if m.fallbacks != [] {
      var requests, rootName := ChosenRoot(cfg, m.node, m.fallbacks);
      FilledKeeps(cfg, m.node, requests, rootName, p, content);
    }
  }

  // ---- over the whole merge, too, two files never meet ----

  /** A place in the tree is not one of the new places in the fallback directory. */
  lemma NewPlaceIsNew(cfg: Config, root: Node, requests: seq<Fallback>, rootName: Bytes, placed: Placed, i: nat, rest: Path, u: Path, c: nat)
    requires root.Dir? && FileAt(root, u, c)
    requires Existing(root, rootName).node.Dir? && i < |requests|
    requires PlacedAs(cfg, rootName, requests, Folds(cfg.rules, Existing(root, rootName).node.entries.Keys), placed)
    ensures [rootName, placed.entries[i].name] + rest != u
  {
    var v := [rootName, placed.entries[i].name] + rest;
    var dir := Existing(root, rootName).node;
    if |u| >= 2 && u[0] == rootName {
      assert Get(root, rootName).value.node == dir;
      assert Find(root, u) == Find(dir, u[1..]);
      assert u[1..][0] == u[1] && Get(dir, u[1]).Some?;
      assert cfg.rules.fold(u[1]) in Folds(cfg.rules, dir.entries.Keys);
      assert v[1] != u[1];
    }
    assert v[0] == rootName;
  }

  lemma KnownMoves(cfg: Config, root: Node, requests: seq<Fallback>, rootName: Bytes, taken: set<Bytes>, placed: Placed, t: Path, c: nat)
    returns (i: Option<nat>)
    requires PlacedAs(cfg, rootName, requests, taken, placed) && Antichain(requests) && !RetakenIn(requests, placed.effects) && Known(root, requests, t, c)
    ensures i.None? ==> FileAt(root, t, c) && Follow(placed.effects, t) == Some(t)
    ensures i.Some? ==> i.value < |requests| && requests[i.value].source <= t
    ensures i.Some? ==> Follow(placed.effects, t) == Some([rootName, placed.entries[i.value].name] + t[|requests[i.value].source|..])
  {
    if Waiting(requests, t, c) {
      var f :| f in requests && Carries(f, t, c);
      var k :| 0 <= k < |requests| && requests[k] == f;
      CoveredMoves(cfg, requests, rootName, taken, placed, k, t, c);
      i := Some(k);
    } else {
      UncoveredStays(cfg, requests, rootName, taken, placed, t);
      i := None;
    }
  }

  lemma PlacedApart(cfg: Config, root: Node, requests: seq<Fallback>, rootName: Bytes, t: Path, c: nat, u: Path, d: nat)
    requires root.Dir? && Existing(root, rootName).node.Dir? && FillRoot(cfg, root, requests, rootName).Some?
    requires Antichain(requests) && !RetakenIn(requests, FillRoot(cfg, root, requests, rootName).value.effects) && t != u
    requires Known(root, requests, t, c) && Known(root, requests, u, d)
    ensures Apart(FillRoot(cfg, root, requests, rootName).value.effects, t, u)
  {
    var placed := FillEffects(cfg, root, requests, rootName);
    var taken := Folds(cfg.rules, Existing(root, rootName).node.entries.Keys);
    var i := KnownMoves(cfg, root, requests, rootName, taken, placed, t, c);
    var j := KnownMoves(cfg, root, requests, rootName, taken, placed, u, d);
    if i.Some? && j.None? {
      NewPlaceIsNew(cfg, root, requests, rootName, placed, i.value, t[|requests[i.value].source|..], u, d);
    } else if i.None? && j.Some? {
      NewPlaceIsNew(cfg, root, requests, rootName, placed, j.value, u[|requests[j.value].source|..], t, c);
    } else if i.Some? && j.Some? {
      NewPlacesDiffer(cfg, requests, rootName, taken, placed, i.value, t, j.value, u);
    }
  }

  lemma NewPlacesDiffer(cfg: Config, requests: seq<Fallback>, rootName: Bytes, taken: set<Bytes>, placed: Placed, i: nat, t: Path, j: nat, u: Path)
    requires PlacedAs(cfg, rootName, requests, taken, placed) && i < |requests| && j < |requests| && t != u
    requires requests[i].source <= t && requests[j].source <= u
    ensures [rootName, placed.entries[i].name] + t[|requests[i].source|..] != [rootName, placed.entries[j].name] + u[|requests[j].source|..]
  {
    var a := [rootName, placed.entries[i].name] + t[|requests[i].source|..];
    var b := [rootName, placed.entries[j].name] + u[|requests[j].source|..];
    if i == j {
      var s := requests[i].source;
      assert t == s + t[|s|..] && u == s + u[|s|..];
      assert a[2..] == t[|s|..] && b[2..] == u[|s|..];
    } else {
      assert cfg.rules.fold(placed.entries[i].name) != cfg.rules.fold(placed.entries[j].name);
      assert a[1] == placed.entries[i].name && b[1] == placed.entries[j].name;
    }
  }

  /** Two different Local files are followed to two different places. */
  lemma FilesStayApart(cfg: Config, base: Node, local: Node, remote: Node, p: Path, c: nat, q: Path, d: nat)
    requires base.Dir? && local.Dir? && remote.Dir? && FileAt(local, p, c) && FileAt(local, q, d) && p != q
    requires MergeTrees(cfg, base, local, remote).Some?
    requires !Retaken(cfg, base, local, remote)
    ensures Apart(MergeTrees(cfg, base, local, remote).value.effects, p, q)
  {
    var m := Merge(cfg, base, local, remote, [], 0).value;
    var final := ApplyFallbacks(cfg, m.node, m.fallbacks).value;
    MergeApart(cfg, base, local, remote, [], 0, p, c, q, d, m);
    assert [] + p == p && [] + q == q;
    FollowAppend(m.effects, final.effects, p);
    FollowAppend(m.effects, final.effects, q);
    var t, u := Follow(m.effects, p), Follow(m.effects, q);
    if t.Some? && u.Some? && m.fallbacks != [] {
      FollowedIsKnown(cfg, base, local, remote, p, c, m);
      FollowedIsKnown(cfg, base, local, remote, q, d, m);
      MergeAntichain(cfg, base, local, remote, [], 0, m);
      PlacedStayApart(cfg, m, t.value, c, u.value, d);
    }
  }

  lemma PlacedStayApart(cfg: Config, m: Merged, t: Path, c: nat, u: Path, d: nat)
    requires m.node.Dir? && m.fallbacks != [] && ApplyFallbacks(cfg, m.node, m.fallbacks).Some? && Antichain(m.fallbacks)
    requires !RetakenIn(Sort(SourceKey, m.fallbacks), ApplyFallbacks(cfg, m.node, m.fallbacks).value.effects)
    requires Known(m.node, m.fallbacks, t, c) && Known(m.node, m.fallbacks, u, d) && t != u
    ensures Apart(ApplyFallbacks(cfg, m.node, m.fallbacks).value.effects, t, u)
  {
    var requests, rootName := ChosenRoot(cfg, m.node, m.fallbacks);
    SameRequests(m.fallbacks);
    KnownSorted(m.node, m.fallbacks, t, c);
    KnownSorted(m.node, m.fallbacks, u, d);
    PlacedApart(cfg, m.node, requests, rootName, t, c, u, d);
  }

  // ---- canonical trees ----

  /** The tree with its fallback directory is canonical as well. */
  lemma MergedTreeIsCanonical(cfg: Config, base: Node, local: Node, remote: Node)
    requires base.Dir? && local.Dir? && remote.Dir?
    requires Canonical(cfg.rules, base) && Canonical(cfg.rules, local) && Canonical(cfg.rules, remote)
    requires MergeTrees(cfg, base, local, remote).Some?
    ensures Canonical(cfg.rules, MergeTrees(cfg, base, local, remote).value.node)
  {
    var m := Merge(cfg, base, local, remote, [], 0).value;
    MergeCanonical(cfg, base, local, remote, [], 0, m);
    if m.fallbacks != [] {
      var requests, rootName := ChosenRoot(cfg, m.node, m.fallbacks);
      forall f
        ensures f in m.fallbacks <==> f in requests
      {
        SortMembers(SourceKey, m.fallbacks, f);
      }
      FallbacksCanonical(cfg, base, local, remote, [], 0, m);
      FilledCanonical(cfg, m.node, requests, rootName);
    }
  }

  ghost predicate RequestsCanonical(rules: Rules, fallbacks: seq<Fallback>) {
    forall f :: f in fallbacks ==> Canonical(rules, f.slot.node)
  }

  lemma FilledCanonical(cfg: Config, root: Node, requests: seq<Fallback>, rootName: Bytes)
    requires root.Dir? && Existing(root, rootName).node.Dir? && FillRoot(cfg, root, requests, rootName).Some?
    requires Canonical(cfg.rules, root) && RequestsCanonical(cfg.rules, requests)
    ensures Canonical(cfg.rules, FillRoot(cfg, root, requests, rootName).value.node)
  {
    var placed := FillEffects(cfg, root, requests, rootName);
    var dir := Existing(root, rootName).node;
    var list := EntriesOf(dir) + placed.entries;
    EntriesOfMakes(dir);
    forall e | e in list
      ensures Canonical(cfg.rules, e.slot.node)
    {
      if e in EntriesOf(dir) {
        assert Get(dir, e.name) == Some(e.slot);
      } else {
        var i :| 0 <= i < |placed.entries| && placed.entries[i] == e;
        assert requests[i] in requests;
      }
    }
    MadeCanonical(cfg.rules, list);
    var inner := Dir(MapOf(Sort(NameOf, list)));
    var filled := Dir(root.entries[rootName := Slot(inner, placed.mtime)]);
    EntriesOfMakes(filled);
    ReplacedCanonical(cfg.rules, root, rootName, Slot(inner, placed.mtime));
    MadeCanonical(cfg.rules, EntriesOf(filled));
    ListMakes(cfg.rules, EntriesOf(filled));
    MakesUnique(EntriesOf(filled), filled, Dir(MapOf(Sort(NameOf, EntriesOf(filled)))));
  }

  lemma ReplacedCanonical(rules: Rules, root: Node, rootName: Bytes, slot: Slot)
    requires root.Dir? && Canonical(rules, root) && Canonical(rules, slot.node)
    ensures EntriesCanonical(rules, EntriesOf(Dir(root.entries[rootName := slot])))
  {
    var filled := Dir(root.entries[rootName := slot]);
    EntriesOfMakes(filled);
    forall e | e in EntriesOf(filled)
      ensures Canonical(rules, e.slot.node)
    {
      assert filled.entries[e.name] == e.slot;
    }
  }

  lemma {:induction false} NameFallbacksCanonical(cfg: Config, base: Node, local: Node, remote: Node, path: Path, depth: nat, name: Bytes, occupied: seq<Bytes>)
    requires base.Dir? && local.Dir? && remote.Dir? && Canonical(cfg.rules, local)
    requires MergeName(cfg, base, local, remote, path, depth, name, occupied).Ok?
    ensures RequestsCanonical(cfg.rules, MergeName(cfg, base, local, remote, path, depth, name, occupied).value.fallbacks)
    decreases local, 1, 0
  {
    var b, l, r := Get(base, name), Get(local, name), Get(remote, name);
    if l.Some? {
      ChildCanonical(cfg.rules, local, name);
    }
    if !LocalConflictCopy(b, l, r) && !Settled(b, l, r) {
      CombinedOutcome(cfg, base, local, remote, path, depth, name, occupied);
      if l.value.node.Dir? {
        FallbacksCanonical(cfg, BaseDirectory(b), l.value.node, r.value.node, path + [name], depth + 1,
                           Merge(cfg, BaseDirectory(b), l.value.node, r.value.node, path + [name], depth + 1).value);
      }
    }
  }

  lemma {:induction false} NamesFallbacksCanonical(cfg: Config, base: Node, local: Node, remote: Node, path: Path, depth: nat, names: seq<Bytes>, occupied: seq<Bytes>)
    requires base.Dir? && local.Dir? && remote.Dir? && Canonical(cfg.rules, local)
    requires MergeNames(cfg, base, local, remote, path, depth, names, occupied).Ok?
    ensures RequestsCanonical(cfg.rules, MergeNames(cfg, base, local, remote, path, depth, names, occupied).value.fallbacks)
    decreases local, 1, |names|
  {
    if names != [] {
      NameFallbacksCanonical(cfg, base, local, remote, path, depth, names[0], occupied);
      var first := MergeName(cfg, base, local, remote, path, depth, names[0], occupied).value;
      NamesFallbacksCanonical(cfg, base, local, remote, path, depth, names[1..], first.occupied);
    }
  }

  lemma {:induction false} FallbacksCanonical(cfg: Config, base: Node, local: Node, remote: Node, path: Path, depth: nat, m: Merged)
    requires base.Dir? && local.Dir? && remote.Dir? && Canonical(cfg.rules, local)
    requires Merge(cfg, base, local, remote, path, depth) == Ok(m)
    ensures RequestsCanonical(cfg.rules, m.fallbacks)
    decreases local, 2, 0
  {
    var names := Ordered(AllNames(base, local, remote));
    var o := MergedFrom(cfg, base, local, remote, path, depth, m);
    NamesFallbacksCanonical(cfg, base, local, remote, path, depth, names, names);
  }
}
