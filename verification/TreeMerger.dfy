/** The merger as the program runs it: shared traces, fallback list, work budget and cycle guard. */
module TreeMerger {
  import opened Wrappers
  import opened Bytes
  import opened Text
  import opened Sorting
  import opened ConflictNames
  import opened Trees
  import opened TreeMerge
  import opened MergeLaws
  import opened MergeFates
  import opened MergeFallbacks
  import opened Lineage
  import Paths

  // ---- how deep a tree is ----

  ghost function Height(n: Node): nat
    decreases n, 1, 0
  {
    if n.File? then 0 else HeightOver(n, SeqOf(n.entries.Keys))
  }

  ghost function HeightOver(n: Node, names: seq<Bytes>): nat
    requires n.Dir?
    decreases n, 0, |names|
  {
    if names == [] then 0
    else
      var first := if names[0] in n.entries then Height(n.entries[names[0]].node) + 1 else 0;
      Max(first, HeightOver(n, names[1..]))
  }

  lemma {:induction false} HeightOverBounds(n: Node, names: seq<Bytes>, name: Bytes)
    requires n.Dir? && name in names && name in n.entries
    ensures Height(n.entries[name].node) < HeightOver(n, names)
  {
    if names[0] != name {
      HeightOverBounds(n, names[1..], name);
    }
  }

  lemma ChildIsLower(n: Node, name: Bytes)
    requires Get(n, name).Some?
    ensures Height(Get(n, name).value.node) < Height(n)
  {
    HeightOverBounds(n, SeqOf(n.entries.Keys), name);
  }

  // ---- lists of names ----

  lemma {:induction false} SameIncreasing(a: seq<Bytes>, b: seq<Bytes>)
    requires IncreasingBy(TreeMerge.Itself, a) && IncreasingBy(TreeMerge.Itself, b)
    requires forall name :: name in a <==> name in b
    ensures a == b
  {
    assert (a != [] ==> a[0] in a) && (b != [] ==> b[0] in b);
    if a != [] {
      FirstSame(a, b);
      TailMembers(a, b);
      SameIncreasing(a[1..], b[1..]);
      assert a == [a[0]] + a[1..] && b == [b[0]] + b[1..];
    }
  }

  lemma FirstSame(a: seq<Bytes>, b: seq<Bytes>)
    requires IncreasingBy(TreeMerge.Itself, a) && IncreasingBy(TreeMerge.Itself, b) && a != [] && b != []
    requires forall name :: name in a <==> name in b
    ensures a[0] == b[0]
  {
    assert a[0] in a && b[0] in b;
    var i :| 0 <= i < |b| && b[i] == a[0];
    var j :| 0 <= j < |a| && a[j] == b[0];
    if i > 0 && j > 0 {
      assert Less(TreeMerge.Itself(b[0]), TreeMerge.Itself(b[i])) && Less(TreeMerge.Itself(a[0]), TreeMerge.Itself(a[j]));
      LessTotal(a[0], b[0]);
    }
  }

  lemma TailMembers(a: seq<Bytes>, b: seq<Bytes>)
    requires IncreasingBy(TreeMerge.Itself, a) && IncreasingBy(TreeMerge.Itself, b) && a != [] && b != [] && a[0] == b[0]
    requires forall name :: name in a <==> name in b
    ensures IncreasingBy(TreeMerge.Itself, a[1..]) && IncreasingBy(TreeMerge.Itself, b[1..])
    ensures forall name :: name in a[1..] <==> name in b[1..]
  {
    TailOf(a);
    TailOf(b);
    forall name
      ensures name in a[1..] <==> name in b[1..]
    {
      assert name in a[1..] <==> name in a && name != a[0];
      assert name in b[1..] <==> name in b && name != b[0];
    }
  }

  lemma TailOf(a: seq<Bytes>)
    requires IncreasingBy(TreeMerge.Itself, a) && a != []
    ensures IncreasingBy(TreeMerge.Itself, a[1..]) && forall name :: name in a[1..] <==> name in a && name != a[0]
  {
    assert a == [a[0]] + a[1..];
    forall i | 0 <= i < |a[1..]|
      ensures a[1..][i] != a[0]
    {
      assert Less(TreeMerge.Itself(a[0]), TreeMerge.Itself(a[i + 1]));
      LessIrreflexive(a[0]);
    }
    forall i, j | 0 <= i < j < |a[1..]|
      ensures Less(TreeMerge.Itself(a[1..][i]), TreeMerge.Itself(a[1..][j]))
    {
      assert Less(TreeMerge.Itself(a[i + 1]), TreeMerge.Itself(a[j + 1]));
    }
  }

  /** The members of a set, listed in some order and then sorted. */
  method SortNames(names: set<Bytes>) returns (ordered: seq<Bytes>)
    ensures ordered == Ordered(names)
  {
    var left, list := names, [];
    while left != {}
      invariant left <= names && forall name :: name in names <==> name in left || name in list
      invariant NoDuplicates(list) && forall name :: name in list ==> name !in left
      decreases |left|
    {
      var name :| name in left;
      left, list := left - {name}, list + [name];
    }
    ordered := Sort(TreeMerge.Itself, list);
    SortedList(list, names);
  }

  lemma SortedList(list: seq<Bytes>, names: set<Bytes>)
    requires NoDuplicates(list) && forall name :: name in names <==> name in list
    ensures Sort(TreeMerge.Itself, list) == Ordered(names)
  {
    var sorted := Sort(TreeMerge.Itself, list);
    SortSorts(TreeMerge.Itself, list);
    OrderedNames(names);
    forall name
      ensures name in sorted <==> name in Ordered(names)
    {
      SortMembers(TreeMerge.Itself, list, name);
    }
    forall i, j | 0 <= i < j < |sorted|
      ensures Less(TreeMerge.Itself(sorted[i]), TreeMerge.Itself(sorted[j]))
    {
      assert AtMost(TreeMerge.Itself(sorted[i]), TreeMerge.Itself(sorted[j]));
      if sorted[i] == sorted[j] {
        var k, l := PermutedTwice(list, sorted, i, j);
      }
    }
    SameIncreasing(sorted, Ordered(names));
  }

  /** Adds one directory's names, unless one of them collides with a different name. */
  method CollectFrom(rules: Rules, directory: Node, names: set<Bytes>, folded: map<Bytes, Bytes>)
    returns (ok: bool, names': set<Bytes>, folded': map<Bytes, Bytes>)
    requires directory.Dir? && Registered(rules, names, folded)
    ensures ok ==> names' == names + directory.entries.Keys && Registered(rules, names', folded')
    ensures !ok ==> !FoldUnique(rules, names + directory.entries.Keys)
  {
    ghost var all := names + directory.entries.Keys;
    names', folded' := names, folded;
    var left := directory.entries.Keys;
    while left != {}
      invariant left <= all && names' <= all && all <= names' + left
      invariant Registered(rules, names', folded')
      decreases |left|
    {
      var name :| name in left;
      var fold := rules.fold(name);
      if fold in folded' && folded'[fold] != name {
        Collides(rules, names', folded', name, all);
        return false, names', folded';
      }
      RegisterName(rules, names', folded', name);
      names', folded', left := names' + {name}, folded'[fold := name], left - {name};
    }
    return true, names', folded';
  }

  lemma RegisterName(rules: Rules, names: set<Bytes>, folded: map<Bytes, Bytes>, name: Bytes)
    requires Registered(rules, names, folded)
    requires rules.fold(name) in folded ==> folded[rules.fold(name)] == name
    ensures Registered(rules, names + {name}, folded[rules.fold(name) := name])
  {
  }

  lemma Collides(rules: Rules, names: set<Bytes>, folded: map<Bytes, Bytes>, name: Bytes, all: set<Bytes>)
    requires Registered(rules, names, folded) && names <= all && name in all
    requires rules.fold(name) in folded && folded[rules.fold(name)] != name
    ensures !FoldUnique(rules, all)
  {
    assert rules.fold(folded[rules.fold(name)]) == rules.fold(name);
  }

  lemma RegisteredUnique(rules: Rules, names: set<Bytes>, folded: map<Bytes, Bytes>)
    requires Registered(rules, names, folded)
    ensures FoldUnique(rules, names)
  {
    forall a, b | a in names && b in names && rules.fold(a) == rules.fold(b)
      ensures a == b
    {
      assert folded[rules.fold(a)] == a && folded[rules.fold(b)] == b;
    }
  }

  lemma MoreCollides(rules: Rules, names: set<Bytes>, more: set<Bytes>)
    requires names <= more && !FoldUnique(rules, names)
    ensures !FoldUnique(rules, more)
  {
  }

  /** Every name once, in order, unless two different names are equal under case folding. */
  method CollectNames(rules: Rules, base: Node, local: Node, remote: Node) returns (r: Option<seq<Bytes>>)
    requires base.Dir? && local.Dir? && remote.Dir?
    ensures r.Some? <==> FoldUnique(rules, AllNames(base, local, remote))
    ensures r.Some? ==> r.value == Ordered(AllNames(base, local, remote))
  {
    ghost var all := AllNames(base, local, remote);
    var directories := [base, local, remote];
    var names: set<Bytes>, folded: map<Bytes, Bytes> := {}, map[];
    var i := 0;
    while i < 3
      invariant 0 <= i <= 3 && directories == [base, local, remote]
      invariant names == NamesUpTo(base, local, remote, i) && Registered(rules, names, folded)
    {
      var ok: bool;
      ghost var before := names;
      ok, names, folded := CollectFrom(rules, directories[i], names, folded);
      if !ok {
        MoreCollides(rules, before + directories[i].entries.Keys, all);
        return None;
      }
      i := i + 1;
    }
    assert names == all;
    RegisteredUnique(rules, names, folded);
    var ordered := SortNames(names);
    return Some(ordered);
  }

  ghost function NamesUpTo(base: Node, local: Node, remote: Node, i: nat): (names: set<Bytes>)
    requires base.Dir? && local.Dir? && remote.Dir?
  {
    (if i > 0 then base.entries.Keys else {}) + (if i > 1 then local.entries.Keys else {}) + (if i > 2 then remote.entries.Keys else {})
  }

  /** The map knows exactly the names seen, by their folded form. */
  ghost predicate Registered(rules: Rules, names: set<Bytes>, folded: map<Bytes, Bytes>) {
    && (forall name :: name in names ==> rules.fold(name) in folded && folded[rules.fold(name)] == name)
    && (forall fold :: fold in folded ==> folded[fold] in names && rules.fold(folded[fold]) == fold)
  }

  // ---- the class ----

  /** The three directories that are being merged at one level. */
  datatype Key = Key(base: Node, local: Node, remote: Node)

  class Merger {
    const cfg: Config
    const limit: nat
    var lineage: Traces
    var fallbacks: seq<Fallback>
    var seen: set<Node>
    var work: nat
    var active: set<Key>

    /** A merger for one merge; the work done by merges before it counts. */
    constructor (cfg: Config, limit: nat, lineage: Traces, spent: nat)
      ensures this.cfg == cfg && this.limit == limit && this.lineage == lineage
      ensures fallbacks == [] && work == spent && active == {}
    {
      this.cfg, this.limit, this.lineage := cfg, limit, lineage;
      fallbacks, seen, work, active := [], {}, spent, {};
    }

    /** Files at or below `path` go with it to `target`. */
    method MoveLineage(path: Path, target: Path)
      modifies this`lineage
      ensures lineage == ApplyOne(old(lineage), Move(path, target), cfg.seedId)
    {
      ghost var e := Move(path, target);
      var left := lineage.Keys;
      while left != {}
        invariant left <= lineage.Keys == old(lineage).Keys
        invariant forall source :: source in left ==> lineage[source] == old(lineage)[source]
        invariant forall source :: source in lineage && source !in left ==>
                    lineage[source] == ApplyOne(old(lineage), e, cfg.seedId)[source]
        decreases |left|
      {
        var source :| source in left;
        var value := lineage[source];
        if path <= value.target {
          lineage := lineage[source := value.(target := target + value.target[|path|..], seed := cfg.seedId)];
        }
        left := left - {source};
      }
    }

    /** Files at `path`, and below it when it is a directory, are given up. */
    method DropLineage(path: Path, directory: bool)
      modifies this`lineage
      ensures lineage == ApplyOne(old(lineage), Drop(path, directory), cfg.seedId)
    {
      ghost var e := Drop(path, directory);
      var left := lineage.Keys;
      while left != {}
        invariant left <= lineage.Keys <= old(lineage).Keys
        invariant forall source :: source in lineage ==> lineage[source] == old(lineage)[source]
        invariant forall source :: source in old(lineage) && source !in left ==>
                    (source in lineage <==> FollowOne(e, old(lineage)[source].target).Some?)
        decreases |left|
      {
        var source :| source in left;
        var value := lineage[source];
        if value.target == path || (directory && path <= value.target) {
          lineage := lineage - {source};
        }
        left := left - {source};
      }
    }

    /** Counts a directory the first time it is read, and its entries every time. */
    method LoadDirectory(n: Node) returns (ok: bool)
      requires n.Dir? && work <= limit
      modifies this`seen, this`work
      ensures seen == old(seen) + {n}
      ensures ok <==> old(work) + (if n in old(seen) then 0 else 1) + |n.entries| <= limit
      ensures ok ==> work == old(work) + (if n in old(seen) then 0 else 1) + |n.entries|
      ensures work <= limit + 1 && (ok ==> work <= limit)
    {
      if n !in seen {
        seen := seen + {n};
        work := work + 1;
        if work > limit {
          return false;
        }
      }
      if |n.entries| > limit - work {
        return false;
      }
      work := work + |n.entries|;
      return true;
    }

    method LoadThree(base: Node, local: Node, remote: Node) returns (ok: bool)
      requires base.Dir? && local.Dir? && remote.Dir? && work <= limit
      modifies this`seen, this`work
      ensures ok ==> work <= limit && seen == old(seen) + {base, local, remote}
      ensures ok ==> work >= old(work) + |base.entries| + |local.entries| + |remote.entries|
    {
      ok := LoadDirectory(base);
      if ok {
        ok := LoadDirectory(local);
      }
      if ok {
        ok := LoadDirectory(remote);
      }
    }

    /** The keys of the merges in progress all belong to higher trees. */
    ghost predicate Above(n: Node)
      reads this`active
    {
      forall key :: key in active ==> Height(key.local) > Height(n)
    }

    /** The recursive merge: the specified tree, or an error; and no other error than the budget is invented. */
    method Merge(base: Node, local: Node, remote: Node, path: Path, depth: nat) returns (r: Result<Node, MergeError>)
      requires base.Dir? && local.Dir? && remote.Dir? && work <= limit && Above(local)
      modifies this`lineage, this`fallbacks, this`seen, this`work, this`active
      ensures active == old(active)
      ensures r.Ok? ==> work <= limit && Done(TreeMerge.Merge(cfg, base, local, remote, path, depth), r.value, old(lineage), lineage, old(fallbacks), fallbacks)
      ensures r.Err? && r.error != OverBudget ==> TreeMerge.Merge(cfg, base, local, remote, path, depth).Err?
      decreases local, 4, 0
    {
      if depth > MaxDepth {
        return Err(TooDeep);
      }
      var key := Key(base, local, remote);
      // The program fails here when the key is already active; in trees it never is.
      assert key !in active;
      active := active + {key};
      r := MergeActive(base, local, remote, path, depth);
      active := active - {key};
    }

    /** What a finished merge has done: the tree, the traces and the requests. */
    ghost predicate Done(spec: Result<Merged, MergeError>, node: Node, before: Traces, after: Traces,
                         requestsBefore: seq<Fallback>, requestsAfter: seq<Fallback>)
    {
      && spec.Ok? && spec.value.node == node && after == ApplyAll(before, spec.value.effects, cfg.seedId)
      && requestsAfter == requestsBefore + spec.value.fallbacks
    }

    method MergeActive(base: Node, local: Node, remote: Node, path: Path, depth: nat) returns (r: Result<Node, MergeError>)
      requires base.Dir? && local.Dir? && remote.Dir? && work <= limit && depth <= MaxDepth
      requires forall key :: key in active ==> Height(key.local) >= Height(local)
      modifies this`lineage, this`fallbacks, this`seen, this`work, this`active
      ensures active == old(active)
      ensures r.Ok? ==> work <= limit && Done(TreeMerge.Merge(cfg, base, local, remote, path, depth), r.value, old(lineage), lineage, old(fallbacks), fallbacks)
      ensures r.Err? && r.error != OverBudget ==> TreeMerge.Merge(cfg, base, local, remote, path, depth).Err?
      decreases local, 3, 0
    {
      var ok := LoadThree(base, local, remote);
      if !ok {
        return Err(OverBudget);
      }
      var names := CollectNames(cfg.rules, base, local, remote);
      if names.None? {
        return Err(NameCollision);
      }
      var entries := MergeAll(base, local, remote, path, depth, names.value);
      if entries.Err? {
        return Err(entries.error);
      }
      var node := CanonicalDirectory(cfg.rules, Sort(NameOf, entries.value));
      return if node.None? then Err(NotCanonical) else Ok(node.value);
    }

    /** How far the names of a directory have been worked off. */
    ghost predicate Progress(whole: Result<Outcome, MergeError>, rest: Result<Outcome, MergeError>, entries: seq<Entry>,
                             effects: seq<Effect>, requests: seq<Fallback>)
    {
      && (whole.Ok? <==> rest.Ok?)
      && (whole.Ok? ==> whole.value == Append(Outcome(entries, effects, requests, []), rest.value))
    }

    method MergeAll(base: Node, local: Node, remote: Node, path: Path, depth: nat, names: seq<Bytes>) returns (r: Result<seq<Entry>, MergeError>)
      requires base.Dir? && local.Dir? && remote.Dir? && work <= limit
      requires forall key :: key in active ==> Height(key.local) >= Height(local)
      modifies this`lineage, this`fallbacks, this`seen, this`work, this`active
      ensures active == old(active)
      ensures var spec := MergeNames(cfg, base, local, remote, path, depth, names, names);
              && (r.Ok? ==> work <= limit && spec.Ok? && r.value == spec.value.entries
                            && lineage == ApplyAll(old(lineage), spec.value.effects, cfg.seedId)
                            && fallbacks == old(fallbacks) + spec.value.fallbacks)
              && (r.Err? && r.error != OverBudget ==> spec.Err?)
      decreases local, 2, 0
    {
      ghost var whole := MergeNames(cfg, base, local, remote, path, depth, names, names);
      ghost var effects: seq<Effect> := [];
      ghost var requests: seq<Fallback> := [];
      var entries: seq<Entry> := [];
      var occupied := names;
      var i := 0;
      assert names[0..] == names;
      while i < |names|
        invariant 0 <= i <= |names| && work <= limit && active == old(active)
        invariant lineage == ApplyAll(old(lineage), effects, cfg.seedId) && fallbacks == old(fallbacks) + requests
        invariant Progress(whole, MergeNames(cfg, base, local, remote, path, depth, names[i..], occupied), entries, effects, requests)
      {
        NamesProgress(base, local, remote, path, depth, names, i, occupied, whole, entries, effects, requests);
        var piece := MergeOne(base, local, remote, path, depth, names[i], occupied);
        if piece.Err? {
          return Err(piece.error);
        }
        ghost var first := MergeName(cfg, base, local, remote, path, depth, names[i], occupied).value;
        ApplyAllAppend(old(lineage), effects, first.effects, cfg.seedId);
        entries, occupied := entries + piece.value.entries, piece.value.occupied;
        effects, requests := effects + first.effects, requests + first.fallbacks;
        i := i + 1;
      }
      assert names[i..] == [];
      assert entries + [] == entries && effects + [] == effects && requests + [] == requests;
      return Ok(entries);
    }

    lemma NamesStep(base: Node, local: Node, remote: Node, path: Path, depth: nat, names: seq<Bytes>, i: nat, occupied: seq<Bytes>)
      requires base.Dir? && local.Dir? && remote.Dir? && i < |names|
      ensures var rest := MergeNames(cfg, base, local, remote, path, depth, names[i..], occupied);
              var first := MergeName(cfg, base, local, remote, path, depth, names[i], occupied);
              if first.Err? then rest.Err?
              else
                var later := MergeNames(cfg, base, local, remote, path, depth, names[i + 1..], first.value.occupied);
                (rest.Ok? <==> later.Ok?) && (later.Ok? ==> rest.value == Append(first.value, later.value))
    {
      assert names[i..][0] == names[i] && names[i..][1..] == names[i + 1..];
    }

    /** One more name is worked off, or the whole merge fails with it. */
    lemma NamesProgress(base: Node, local: Node, remote: Node, path: Path, depth: nat, names: seq<Bytes>, i: nat, occupied: seq<Bytes>,
                        whole: Result<Outcome, MergeError>, entries: seq<Entry>, effects: seq<Effect>, requests: seq<Fallback>)
      requires base.Dir? && local.Dir? && remote.Dir? && i < |names|
      requires Progress(whole, MergeNames(cfg, base, local, remote, path, depth, names[i..], occupied), entries, effects, requests)
      ensures var first := MergeName(cfg, base, local, remote, path, depth, names[i], occupied);
              if first.Err? then whole.Err?
              else Progress(whole, MergeNames(cfg, base, local, remote, path, depth, names[i + 1..], first.value.occupied),
                            entries + first.value.entries, effects + first.value.effects, requests + first.value.fallbacks)
    {
      NamesStep(base, local, remote, path, depth, names, i, occupied);
      var first := MergeName(cfg, base, local, remote, path, depth, names[i], occupied);
      if first.Ok? {
        ProgressMore(whole, MergeNames(cfg, base, local, remote, path, depth, names[i..], occupied), entries, effects, requests,
                     first.value, MergeNames(cfg, base, local, remote, path, depth, names[i + 1..], first.value.occupied));
      }
    }

    lemma ProgressMore(whole: Result<Outcome, MergeError>, rest: Result<Outcome, MergeError>, entries: seq<Entry>,
                       effects: seq<Effect>, requests: seq<Fallback>, first: Outcome, later: Result<Outcome, MergeError>)
      requires Progress(whole, rest, entries, effects, requests)
      requires rest.Ok? <==> later.Ok?
      requires later.Ok? ==> rest.value == Append(first, later.value)
      ensures Progress(whole, later, entries + first.entries, effects + first.effects, requests + first.fallbacks)
    {
    }

    /** One name of the directory: a conflict copy, a request for the fallback directory, or a merged entry. */
    method MergeOne(base: Node, local: Node, remote: Node, path: Path, depth: nat, name: Bytes, occupied: seq<Bytes>)
      returns (r: Result<Piece, MergeError>)
      requires base.Dir? && local.Dir? && remote.Dir? && work <= limit
      requires forall key :: key in active ==> Height(key.local) >= Height(local)
      modifies this`lineage, this`fallbacks, this`seen, this`work, this`active
      ensures active == old(active)
      ensures var spec := MergeName(cfg, base, local, remote, path, depth, name, occupied);
              && (r.Ok? ==> work <= limit && spec.Ok? && r.value == Piece(spec.value.entries, spec.value.occupied)
                            && lineage == ApplyAll(old(lineage), spec.value.effects, cfg.seedId)
                            && fallbacks == old(fallbacks) + spec.value.fallbacks)
              && (r.Err? && r.error != OverBudget ==> spec.Err?)
      decreases local, 1, 0
    {
      var child := path + [name];
      if |Paths.Join(child)| > Paths.MaxPathBytes {
        return Err(PathTooLong);
      }
      var b, l, r' := Get(base, name), Get(local, name), Get(remote, name);
      if LocalConflictCopy(b, l, r') {
        r := MoveAside(path, name, l.value, r', occupied);
        return;
      }
      ghost var drops: seq<Effect> := if l == b && r' != b then [Drop(child, l.Some? && l.value.node.Dir?)] else [];
      if l == b && r' != b {
        DropLineage(child, l.Some? && l.value.node.Dir?);
      }
      assert lineage == ApplyAll(old(lineage), drops, cfg.seedId);
      if l.Some? {
        ChildIsLower(local, name);
      }
      var merged := MergeEntry(b, l, r', child, depth, local);
      if merged.Err? {
        return Err(merged.error);
      }
      if Settled(b, l, r') {
        assert drops + [] == drops && fallbacks + [] == fallbacks;
      } else {
        CombinedOutcome(cfg, base, local, remote, path, depth, name, occupied);
      }
      return Ok(Piece(ListOf(name, merged.value), occupied));
    }

    /** Local's entry gets a copy's name and its files go with it, or it waits for the fallback directory. */
    method MoveAside(path: Path, name: Bytes, local: Slot, remote: Option<Slot>, occupied: seq<Bytes>) returns (r: Result<Piece, MergeError>)
      modifies this`lineage, this`fallbacks
      ensures var spec := StepAside(cfg, path, name, local, remote, occupied);
              && (r.Ok? ==> spec.Ok? && r.value == Piece(spec.value.entries, spec.value.occupied)
                            && lineage == ApplyAll(old(lineage), spec.value.effects, cfg.seedId)
                            && fallbacks == old(fallbacks) + spec.value.fallbacks)
              && (r.Err? ==> spec.Err?)
    {
      var choice := ConflictCopyName(cfg.rules, cfg.seed, name, Paths.Join(path), occupied);
      match choice
      case NeedsFallback =>
        fallbacks := fallbacks + [Fallback(path + [name], name, local)];
        return Ok(Piece(ListOf(name, remote), occupied));
      case Chosen(copy) =>
        MoveLineage(path + [name], path + [copy]);
        assert ApplyAll(old(lineage), [Move(path + [name], path + [copy])], cfg.seedId) == lineage;
        assert fallbacks + [] == fallbacks;
        return Ok(Piece(ListOf(name, remote) + [Entry(copy, local)], occupied + [copy]));
      case Exhausted =>
        return Err(NamesExhausted);
      case BadSeed =>
        return Err(MergeError.BadSeed);
    }

    /** Takes one side's entry, or combines both. */
    method MergeEntry(b: Option<Slot>, l: Option<Slot>, r: Option<Slot>, path: Path, depth: nat, ghost parent: Node)
      returns (merged: Result<Option<Slot>, MergeError>)
      requires work <= limit && (l.Some? ==> l.value.node < parent && Height(l.value.node) < Height(parent))
      requires forall key :: key in active ==> Height(key.local) >= Height(parent)
      modifies this`lineage, this`fallbacks, this`seen, this`work, this`active
      ensures active == old(active)
      ensures merged.Ok? ==> work <= limit
      ensures merged.Ok? && Settled(b, l, r) ==> merged.value == Settle(b, l, r) && lineage == old(lineage) && fallbacks == old(fallbacks)
      ensures merged.Ok? && !Settled(b, l, r) ==>
                var spec := MergeBoth(cfg, b, l.value, r, path, depth);
                && spec.Ok? && merged.value == spec.value.slot && lineage == ApplyAll(old(lineage), spec.value.effects, cfg.seedId)
                && fallbacks == old(fallbacks) + spec.value.fallbacks
      ensures merged.Err? ==> !Settled(b, l, r)
      ensures merged.Err? && merged.error != OverBudget ==> MergeBoth(cfg, b, l.value, r, path, depth).Err?
      decreases parent, 0, 0
    {
      if l == b {
        return Ok(r);
      }
      if r == b {
        return Ok(l);
      }
      if l == r {
        return Ok(l);
      }
      if l.None? {
        return Ok(r);
      }
      if r.None? || l.value.node.Dir? != r.value.node.Dir? || (l.value.node.File? && l.value.node != r.value.node) {
        return Err(NotAllocated);
      }
      if l.value.node.File? {
        assert fallbacks + [] == fallbacks;
        return Ok(Some(Slot(l.value.node, Max(l.value.mtime, r.value.mtime))));
      }
      var node := Merge(BaseDirectory(b), l.value.node, r.value.node, path, depth + 1);
      if node.Err? {
        return Err(node.error);
      }
      return Ok(Some(Slot(node.value, MergedTime(node.value, l.value, r.value))));
    }

    /** The whole merge: the roots, and then a fallback directory for what found no place. */
    method MergeRoots(base: Node, local: Node, remote: Node) returns (r: Result<Node, MergeError>)
      requires base.Dir? && local.Dir? && remote.Dir? && work <= limit && active == {} && fallbacks == []
      modifies this`lineage, this`fallbacks, this`seen, this`work, this`active
      ensures r.Ok? ==> work <= limit && MergeTrees(cfg, base, local, remote).Some?
      ensures r.Ok? ==> r.value == MergeTrees(cfg, base, local, remote).value.node
      ensures r.Ok? ==> lineage == ApplyAll(old(lineage), MergeTrees(cfg, base, local, remote).value.effects, cfg.seedId)
      ensures r.Err? && r.error != OverBudget ==> MergeTrees(cfg, base, local, remote).None?
    {
      var merged := Merge(base, local, remote, [], 0);
      if merged.Err? {
        return merged;
      }
      ghost var m := TreeMerge.Merge(cfg, base, local, remote, [], 0).value;
      assert [] + m.fallbacks == m.fallbacks;
      var final := PlaceRequests(merged.value);
      if final.Ok? {
        ApplyAllAppend(old(lineage), m.effects, ApplyFallbacks(cfg, m.node, m.fallbacks).value.effects, cfg.seedId);
      }
      return final;
    }

    /** Makes room in the fallback directory for every request, and lets the files follow. */
    method PlaceRequests(root: Node) returns (r: Result<Node, MergeError>)
      requires root.Dir? && work <= limit
      modifies this`lineage, this`fallbacks, this`seen, this`work
      ensures var spec := ApplyFallbacks(cfg, root, old(fallbacks));
              && (r.Ok? ==> work <= limit && spec.Some? && r.value == spec.value.node
                            && lineage == ApplyAll(old(lineage), spec.value.effects, cfg.seedId))
              && (r.Err? && r.error != OverBudget ==> spec.None?)
    {
      if fallbacks == [] {
        return Ok(root);
      }
      if !ValidId(cfg.seedId) {
        return Err(NotCanonical);
      }
      fallbacks := Sort(SourceKey, fallbacks);
      var ok := LoadDirectory(root);
      if !ok {
        return Err(OverBudget);
      }
      var rootName := FindRoot(root, FallbackRoot);
      if rootName.None? {
        return Err(NamesExhausted);
      }
      ChosenIsDir(cfg.rules, root, FallbackRoot, 1);
      r := PlaceInto(root, rootName.value);
    }

    /** Places every request in the chosen directory. */
    method PlaceInto(root: Node, rootName: Bytes) returns (r: Result<Node, MergeError>)
      requires root.Dir? && work <= limit && Existing(root, rootName).node.Dir?
      modifies this`lineage, this`seen, this`work
      ensures var spec := FillRoot(cfg, root, fallbacks, rootName);
              && (r.Ok? ==> work <= limit && spec.Some? && r.value == spec.value.node
                            && lineage == ApplyAll(old(lineage), spec.value.effects, cfg.seedId))
              && (r.Err? && r.error != OverBudget ==> spec.None?)
    {
      var existing := Existing(root, rootName);
      var ok := LoadDirectory(existing.node);
      if !ok {
        return Err(OverBudget);
      }
      var placed := PlaceEach(rootName, existing);
      if placed.None? {
        return Err(NamesExhausted);
      }
      r := StoreFilled(root, rootName, existing.node, placed.value);
    }

    /** Tries the numbered names of the fallback directory in turn. */
    method FindRoot(root: Node, first: Bytes) returns (r: Option<Bytes>)
      requires root.Dir?
      ensures r == ChooseRoot(cfg.rules, root, first, 1)
    {
      var folded := Folds(cfg.rules, root.entries.Keys);
      var ordinal := 1;
      while ordinal <= MaxOrdinal
        invariant 1 <= ordinal <= MaxOrdinal + 1
        invariant ChooseRoot(cfg.rules, root, first, ordinal) == ChooseRoot(cfg.rules, root, first, 1)
      {
        var candidate := first + Suffix(ordinal);
        var entry := Get(root, candidate);
        if entry.Some? {
          if entry.value.node.Dir? {
            return Some(candidate);
          }
        } else if cfg.rules.fold(candidate) !in folded {
          return Some(candidate);
        }
        ordinal := ordinal + 1;
      }
      return None;
    }

    method FindPlace(leaf: Bytes, rootName: Bytes, taken: set<Bytes>) returns (r: Option<Bytes>)
      ensures r == PlaceFrom(cfg, leaf, rootName, taken, 1)
    {
      var ordinal := 1;
      while ordinal <= MaxOrdinal
        invariant 1 <= ordinal <= MaxOrdinal + 1
        invariant PlaceFrom(cfg, leaf, rootName, taken, ordinal) == PlaceFrom(cfg, leaf, rootName, taken, 1)
      {
        var name := FallbackName(cfg.rules, leaf, rootName, cfg.seedId, ordinal);
        if name.None? {
          return None;
        }
        if cfg.rules.fold(name.value) !in taken && !cfg.busy(name.value) {
          return name;
        }
        ordinal := ordinal + 1;
      }
      return None;
    }

    /** How far the requests have been placed. */
    ghost predicate Placing(whole: Option<Placed>, rest: Option<Placed>, entries: seq<Entry>, effects: seq<Effect>) {
      && (whole.Some? <==> rest.Some?)
      && (whole.Some? ==> whole.value == Placed(entries + rest.value.entries, effects + rest.value.effects, rest.value.mtime))
    }

    method PlaceEach(rootName: Bytes, existing: Slot) returns (r: Option<Placed>)
      requires existing.node.Dir?
      modifies this`lineage
      ensures var spec := PlaceAll(cfg, rootName, fallbacks, Folds(cfg.rules, existing.node.entries.Keys), existing.mtime);
              && (r.Some? ==> spec.Some? && r.value.entries == spec.value.entries && r.value.mtime == spec.value.mtime
                              && lineage == ApplyAll(old(lineage), spec.value.effects, cfg.seedId))
              && (r.None? ==> spec.None?)
    {
      var occupied := Folds(cfg.rules, existing.node.entries.Keys);
      var mtime: nat := existing.mtime;
      ghost var whole := PlaceAll(cfg, rootName, fallbacks, occupied, mtime);
      ghost var effects: seq<Effect> := [];
      var entries: seq<Entry> := [];
      var i := 0;
      assert fallbacks[0..] == fallbacks;
      while i < |fallbacks|
        invariant 0 <= i <= |fallbacks|
        invariant lineage == ApplyAll(old(lineage), effects, cfg.seedId)
        invariant Placing(whole, PlaceAll(cfg, rootName, fallbacks[i..], occupied, mtime), entries, effects)
      {
        var request := fallbacks[i];
        assert fallbacks[i..][0] == request && fallbacks[i..][1..] == fallbacks[i + 1..];
        var name := FindPlace(request.leaf, rootName, occupied);
        if name.None? {
          return None;
        }
        ghost var e := Move(request.source, [rootName, name.value]);
        ghost var later := PlaceAll(cfg, rootName, fallbacks[i + 1..], occupied + {cfg.rules.fold(name.value)}, Max(mtime, request.slot.mtime));
        PlacingMore(whole, PlaceAll(cfg, rootName, fallbacks[i..], occupied, mtime), entries, effects, Entry(name.value, request.slot), e, later);
        occupied := occupied + {cfg.rules.fold(name.value)};
        entries := entries + [Entry(name.value, request.slot)];
        mtime := if request.slot.mtime > mtime then request.slot.mtime else mtime;
        MoveLineage(request.source, [rootName, name.value]);
        ApplyAllAppend(old(lineage), effects, [e], cfg.seedId);
        effects := effects + [e];
        i := i + 1;
      }
      assert fallbacks[i..] == [] && entries + [] == entries && effects + [] == effects;
      return Some(Placed(entries, [], mtime));
    }

    lemma PlacingMore(whole: Option<Placed>, rest: Option<Placed>, entries: seq<Entry>, effects: seq<Effect>, entry: Entry, e: Effect, later: Option<Placed>)
      requires Placing(whole, rest, entries, effects) && (rest.Some? <==> later.Some?)
      requires later.Some? ==> rest.value == Placed([entry] + later.value.entries, [e] + later.value.effects, later.value.mtime)
      ensures Placing(whole, later, entries + [entry], effects + [e])
    {
    }

    /** Checks and stores the filled fallback directory and the root that holds it. */
    method StoreFilled(root: Node, rootName: Bytes, directory: Node, placed: Placed) returns (r: Result<Node, MergeError>)
      requires root.Dir? && directory.Dir? && directory == Existing(root, rootName).node
      ensures var entries := Sort(NameOf, EntriesOf(directory) + placed.entries);
              var filled := Dir(root.entries[rootName := Slot(Dir(MapOf(entries)), placed.mtime)]);
              && (r.Ok? ==> CanonicalList(cfg.rules, entries) && CanonicalList(cfg.rules, Sort(NameOf, EntriesOf(filled))) && r.value == filled)
              && (r.Err? ==> !CanonicalList(cfg.rules, entries) || !CanonicalList(cfg.rules, Sort(NameOf, EntriesOf(filled))))
    {
      var old' := ListEntries(directory);
      var inner := CanonicalDirectory(cfg.rules, Sort(NameOf, old' + placed.entries));
      if inner.None? {
        return Err(NotCanonical);
      }
      var filled := Dir(root.entries[rootName := Slot(inner.value, placed.mtime)]);
      var rootValues := ListEntries(filled);
      var stored := CanonicalDirectory(cfg.rules, Sort(NameOf, rootValues));
      if stored.None? {
        return Err(NotCanonical);
      }
      EntriesOfMakes(filled);
      ListMakes(cfg.rules, rootValues);
      MakesUnique(rootValues, filled, stored.value);
      return Ok(stored.value);
    }

    /** The entries of a directory, in order. */
    method ListEntries(n: Node) returns (entries: seq<Entry>)
      requires n.Dir?
      ensures entries == EntriesOf(n)
    {
      var names := SortNames(n.entries.Keys);
      OrderedNames(n.entries.Keys);
      entries := [];
      var i := 0;
      assert names[0..] == names;
      while i < |names|
        invariant 0 <= i <= |names|
        invariant entries + Picked(n, names[i..]) == Picked(n, names)
      {
        PickedStep(n, names, i, entries);
        assert names[i] in n.entries;
        entries := entries + [Entry(names[i], n.entries[names[i]])];
        i := i + 1;
      }
      assert names[i..] == [];
    }
  }

  lemma PickedStep(n: Node, names: seq<Bytes>, i: nat, entries: seq<Entry>)
    requires n.Dir? && i < |names| && names[i] in n.entries
    ensures entries + Picked(n, names[i..]) == (entries + [Entry(names[i], n.entries[names[i]])]) + Picked(n, names[i + 1..])
  {
    assert names[i..][1..] == names[i + 1..];
    assert Picked(n, names[i..]) == [Entry(names[i], n.entries[names[i]])] + Picked(n, names[i + 1..]);
  }

  /** The entries one name adds, and the names in use afterwards. */
  datatype Piece = Piece(entries: seq<Entry>, occupied: seq<Bytes>)

  lemma {:induction false} ApplyAllAppend(traces: Traces, a: seq<Effect>, b: seq<Effect>, seedId: Bytes)
    ensures ApplyAll(traces, a + b, seedId) == ApplyAll(ApplyAll(traces, a, seedId), b, seedId)
  {
    if a == [] {
      assert a + b == b;
    } else {
      assert (a + b)[1..] == a[1..] + b;
      ApplyAllAppend(ApplyOne(traces, a[0], seedId), a[1..], b, seedId);
    }
  }
}
