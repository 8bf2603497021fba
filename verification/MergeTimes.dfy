/** A Local file that a merge gives another place has there the time it had in Local. */
module MergeTimes {
  import opened Wrappers
  import opened Bytes
  import opened Sorting
  import opened ConflictNames
  import opened Trees
  import opened TreeMerge
  import opened MergeLaws
  import opened MergeFates
  import opened MergeTracks
  import opened MergeRequests
  import opened MergeFallbacks
  import opened Lineage

  /** The entry itself, or what is below it. */
  function Under(slot: Slot, rest: Path): Option<Slot> {
    if rest == [] then Some(slot) else Find(slot.node, rest)
  }

  /** Some entry of the list has this slot at the target. */
  ghost predicate SlotIn(entries: seq<Entry>, path: Path, target: Path, slot: Option<Slot>) {
    && |target| > |path| && path <= target
    && exists e :: e in entries && e.name == target[|path|] && Under(e.slot, target[|path| + 1..]) == slot
  }

  /** The place is the old one with another name at one position, not above `from`. */
  ghost predicate Renamed(place: Path, t: Path, from: nat) {
    exists k {:trigger t[k]} :: from <= k < |place| && |t| == |place| && t == place[k := t[k]]
  }

  /** A place that is not the old one has there what Local had, time included, and differs in one name. */
  ghost predicate Carried(local: Node, o: Outcome, path: Path, p: Path)
    requires p != []
  {
    var t := Follow(o.effects, path + p);
    t.Some? && t.value != path + p ==> SlotIn(o.entries, path, t.value, Find(local, p)) && Renamed(path + p, t.value, |path|)
  }

  ghost predicate MergedCarried(local: Node, m: Merged, path: Path, p: Path)
    requires p != []
  {
    var t := Follow(m.effects, path + p);
    t.Some? && t.value != path + p ==>
      |t.value| > |path| && path <= t.value && Find(m.node, t.value[|path|..]) == Find(local, p) && Renamed(path + p, t.value, |path|)
  }

  lemma MovedCarried(local: Node, o: Outcome, path: Path, name: Bytes, copy: Bytes, p: Path)
    requires Get(local, name).Some? && o.effects == [Move(path + [name], path + [copy])]
    requires Entry(copy, Get(local, name).value) in o.entries
    ensures Carried(local, o, path, [name] + p)
  {
    var place, child, target := path + ([name] + p), path + [name], path + [copy] + p;
    assert place == child + p && child <= place && place[|child|..] == p;
    assert target[|path|] == copy && target[|path| + 1..] == p;
    assert Follow(o.effects, place) == Some(target);
    assert ([name] + p)[1..] == p;
    assert SlotIn(o.entries, path, target, Find(local, [name] + p));
    assert target == place[|path| := target[|path|]];
  }

  lemma AsideCarried(cfg: Config, local: Node, remote: Node, path: Path, name: Bytes, occupied: seq<Bytes>, p: Path, o: Outcome)
    requires Get(local, name).Some?
    requires StepAside(cfg, path, name, Get(local, name).value, Get(remote, name), occupied) == Ok(o)
    ensures Carried(local, o, path, [name] + p)
  {
    if o.fallbacks == [] {
      MovedCarried(local, o, path, name, o.occupied[|occupied|], p);
    }
  }

  /** The directory's own merge says where its file is, so the one above it knows. */
  lemma DirectoryCarried(local: Node, m: Merged, path: Path, name: Bytes, slot: Slot, occupied: seq<Bytes>, p: Path)
    requires Get(local, name).Some? && p != [] && slot.node == m.node
    requires MergedCarried(Get(local, name).value.node, m, path + [name], p)
    ensures Carried(local, Outcome([Entry(name, slot)], m.effects, m.fallbacks, occupied), path, [name] + p)
  {
    var o := Outcome([Entry(name, slot)], m.effects, m.fallbacks, occupied);
    var child := path + [name];
    assert child + p == path + ([name] + p) && ([name] + p)[1..] == p;
    var t := Follow(m.effects, child + p);
    if t.Some? && t.value != child + p {
      var target := t.value;
      assert target[..|child|] == child;
      assert target[|path|] == target[..|child|][|path|] == name;
      assert target[..|path|] == target[..|child|][..|path|];
      assert Entry(name, slot) in o.entries && target[|path| + 1..] == target[|child|..];
      var k :| |child| <= k < |child + p| && |target| == |child + p| && target == (child + p)[k := target[k]];
    }
  }

  lemma {:induction false} NameCarried(cfg: Config, base: Node, local: Node, remote: Node, path: Path, depth: nat,
                                       name: Bytes, occupied: seq<Bytes>, p: Path, content: nat, o: Outcome)
    requires base.Dir? && local.Dir? && remote.Dir?
    requires Get(local, name).Some? && HoldsFile(Get(local, name).value.node, p, content)
    requires MergeName(cfg, base, local, remote, path, depth, name, occupied) == Ok(o)
    ensures Carried(local, o, path, [name] + p)
    decreases local, 1, 0
  {
    var b, l, r := Get(base, name), Get(local, name), Get(remote, name);
    if LocalConflictCopy(b, l, r) {
      AsideCarried(cfg, local, remote, path, name, occupied, p, o);
    } else if !Settled(b, l, r) {
      CombinedOutcome(cfg, base, local, remote, path, depth, name, occupied);
      if l.value.node.Dir? {
        var bd, m := BaseDirectory(b), Merge(cfg, BaseDirectory(b), l.value.node, r.value.node, path + [name], depth + 1).value;
        MergeCarried(cfg, bd, l.value.node, r.value.node, path + [name], depth + 1, p, content, m);
        DirectoryCarried(local, m, path, name, o.entries[0].slot, occupied, p);
      }
    }
  }

  /** The effects of other names leave the place of this one alone. */
  lemma CarriedFirst(rules: Rules, local: Node, first: Outcome, rest: Outcome, path: Path, names: seq<Bytes>, occupied: seq<Bytes>, p: Path)
    requires Ready(rules, names, occupied) && names != [] && p != []
    requires occupied <= first.occupied && FoldDistinct(rules, first.occupied)
    requires Carried(local, first, path, p) && Landed(first, path, p, {names[0]} + Added(occupied, first.occupied))
    requires EffectsBelow(rest.effects, path, Set(names[1..]))
    ensures Carried(local, Append(first, rest), path, p)
  {
    var t := Follow(first.effects, path + p);
    FollowAppend(first.effects, rest.effects, path + p);
    ReadyRest(rules, names, occupied, first.occupied);
    if t.Some? {
      assert t.value[|path|] !in Set(names[1..]) by {
        if t.value[|path|] in Added(occupied, first.occupied) {
          AddedElsewhere(rules, occupied, first.occupied, t.value[|path|]);
        }
      }
      FollowElsewhere(rest.effects, path, Set(names[1..]), t.value);
    }
  }

  lemma CarriedLater(local: Node, first: Outcome, rest: Outcome, path: Path, name: Bytes, p: Path)
    requires p != [] && p[0] != name
    requires Carried(local, rest, path, p) && EffectsBelow(first.effects, path, {name})
    ensures Carried(local, Append(first, rest), path, p)
  {
    FollowAppend(first.effects, rest.effects, path + p);
    assert (path + p)[|path|] == p[0];
    FollowElsewhere(first.effects, path, {name}, path + p);
  }

  lemma {:induction false} NamesCarried(cfg: Config, base: Node, local: Node, remote: Node, path: Path, depth: nat,
                                        names: seq<Bytes>, occupied: seq<Bytes>, p: Path, content: nat, o: Outcome)
    requires base.Dir? && local.Dir? && remote.Dir? && Ready(cfg.rules, names, occupied)
    requires FileAt(local, p, content) && p[0] in names
    requires MergeNames(cfg, base, local, remote, path, depth, names, occupied) == Ok(o)
    ensures Carried(local, o, path, p)
    decreases local, 1, |names|
  {
    var name := names[0];
    NameBelow(cfg, base, local, remote, path, depth, name, occupied);
    var first := MergeName(cfg, base, local, remote, path, depth, name, occupied).value;
    NameShape(cfg, base, local, remote, path, depth, name, occupied, first);
    ReadyRest(cfg.rules, names, occupied, first.occupied);
    NamesBelow(cfg, base, local, remote, path, depth, names[1..], first.occupied);
    var rest := MergeNames(cfg, base, local, remote, path, depth, names[1..], first.occupied).value;
    if p[0] == name {
      NameCarried(cfg, base, local, remote, path, depth, name, occupied, p[1..], content, first);
      NameFate(cfg, base, local, remote, path, depth, name, occupied, p[1..], content, first);
      assert [name] + p[1..] == p;
      CarriedFirst(cfg.rules, local, first, rest, path, names, occupied, p);
    } else {
      NamesCarried(cfg, base, local, remote, path, depth, names[1..], first.occupied, p, content, rest);
      CarriedLater(local, first, rest, path, name, p);
    }
  }

  lemma SlotInNode(entries: seq<Entry>, n: Node, path: Path, target: Path, slot: Option<Slot>)
    requires Makes(entries, n) && SlotIn(entries, path, target, slot)
    ensures Find(n, target[|path|..]) == slot
  {
    var e :| e in entries && e.name == target[|path|] && Under(e.slot, target[|path| + 1..]) == slot;
    assert Get(n, e.name) == Some(e.slot);
    assert target[|path|..][1..] == target[|path| + 1..];
  }

  /** Within the merge proper: a followed file that is no longer at its path is Local's entry, time included. */
  lemma {:induction false} MergeCarried(cfg: Config, base: Node, local: Node, remote: Node, path: Path, depth: nat, p: Path, content: nat, m: Merged)
    requires base.Dir? && local.Dir? && remote.Dir? && FileAt(local, p, content)
    requires Merge(cfg, base, local, remote, path, depth) == Ok(m)
    ensures MergedCarried(local, m, path, p)
    decreases local, 2, 0
  {
    var all := AllNames(base, local, remote);
    var names := Ordered(all);
    OrderedReady(cfg.rules, all);
    OrderedSet(all);
    assert p[0] in Set(names);
    var o := MergedFrom(cfg, base, local, remote, path, depth, m);
    NamesCarried(cfg, base, local, remote, path, depth, names, names, p, content, o);
    ListMakes(cfg.rules, o.entries);
    var t := Follow(m.effects, path + p);
    if t.Some? && t.value != path + p {
      SlotInNode(o.entries, m.node, path, t.value, Find(local, p));
    }
  }

  // ---- into the fallback directory ----

  lemma ReplacedKeepsSlot(root: Node, rootName: Bytes, dir: Node, list: seq<Entry>, inner: Slot, q: Path, c: nat)
    requires root.Dir? && dir.Dir? && FileAt(root, q, c) && (q[0] == rootName ==> Get(root, rootName).value.node == dir)
    requires Makes(EntriesOf(dir), dir) && Makes(list, inner.node) && EntriesOf(dir) <= list
    ensures Find(Dir(root.entries[rootName := inner]), q) == Find(root, q)
  {
    var filled := Dir(root.entries[rootName := inner]);
    if q[0] == rootName {
      assert |q| > 1 && Find(root, q) == Find(dir, q[1..]);
      InnerKeepsSlot(dir, list, inner.node, q[1..]);
      assert Get(filled, q[0]) == Some(inner);
    } else {
      assert Get(filled, q[0]) == Get(root, q[0]);
    }
  }

  lemma InnerKeepsSlot(dir: Node, list: seq<Entry>, inner: Node, q: Path)
    requires dir.Dir? && Makes(EntriesOf(dir), dir) && Makes(list, inner) && EntriesOf(dir) <= list
    requires q != [] && Find(dir, q).Some?
    ensures Find(inner, q) == Find(dir, q)
  {
    var e := Entry(q[0], dir.entries[q[0]]);
    assert e in EntriesOf(dir);
    assert e in list[..|EntriesOf(dir)|];
    assert e in list;
  }

  /** A file that was in the tree keeps its entry while the fallback directory is filled. */
  lemma FilledKeepsSlot(cfg: Config, root: Node, requests: seq<Fallback>, rootName: Bytes, q: Path, c: nat)
    requires root.Dir? && Existing(root, rootName).node.Dir? && FillRoot(cfg, root, requests, rootName).Some?
    requires FileAt(root, q, c)
    ensures Find(FillRoot(cfg, root, requests, rootName).value.node, q) == Find(root, q)
  {
    var placed := FillEffects(cfg, root, requests, rootName);
    var inner := Filled(cfg, root, requests, rootName, placed);
    var dir := Existing(root, rootName).node;
    EntriesOfMakes(dir);
    ReplacedKeepsSlot(root, rootName, dir, EntriesOf(dir) + placed.entries, inner, q, c);
  }

  lemma ReplacedHasSlot(root: Node, rootName: Bytes, list: seq<Entry>, inner: Slot, e: Entry, rest: Path)
    requires root.Dir? && Makes(list, inner.node) && e in list
    ensures Find(Dir(root.entries[rootName := inner]), [rootName, e.name] + rest) == Under(e.slot, rest)
  {
    var q := [rootName, e.name] + rest;
    assert q[1..] == [e.name] + rest && q[1..][1..] == rest;
    assert Get(inner.node, e.name) == Some(e.slot);
  }

  /** A request is in the fallback directory with its entry. */
  lemma FilledHasSlot(cfg: Config, root: Node, requests: seq<Fallback>, rootName: Bytes, placed: Placed, i: nat, rest: Path)
    requires root.Dir? && Existing(root, rootName).node.Dir? && FillRoot(cfg, root, requests, rootName).Some?
    requires var dir := Existing(root, rootName);
             PlaceAll(cfg, rootName, requests, Folds(cfg.rules, dir.node.entries.Keys), dir.mtime) == Some(placed)
    requires i < |placed.entries|
    ensures Find(FillRoot(cfg, root, requests, rootName).value.node, [rootName, placed.entries[i].name] + rest) == Under(placed.entries[i].slot, rest)
  {
    var inner := Filled(cfg, root, requests, rootName, placed);
    var list := EntriesOf(Existing(root, rootName).node) + placed.entries;
    assert list[|EntriesOf(Existing(root, rootName).node)| + i] == placed.entries[i];
    ReplacedHasSlot(root, rootName, list, inner, placed.entries[i], rest);
  }

  /** What a request carries is what Local has there. */
  lemma RequestHasSlot(local: Node, f: Fallback, p: Path)
    requires LocalAt(local, [], f) && f.source <= p
    ensures Under(f.slot, p[|f.source|..]) == Find(local, p)
  {
    var rest := p[|f.source|..];
    assert f.source[0..] == f.source;
    assert p == f.source + rest;
    if rest == [] {
      assert p == f.source;
    } else {
      FindPrefix(local, f.source, rest);
    }
  }

  lemma CarriedHasSlot(cfg: Config, local: Node, root: Node, requests: seq<Fallback>, rootName: Bytes, i: nat, p: Path, c: nat)
    requires root.Dir? && Existing(root, rootName).node.Dir? && FillRoot(cfg, root, requests, rootName).Some?
    requires Antichain(requests) && !RetakenIn(requests, FillRoot(cfg, root, requests, rootName).value.effects)
    requires i < |requests| && Carries(requests[i], p, c) && LocalAt(local, [], requests[i])
    ensures var final := FillRoot(cfg, root, requests, rootName).value;
            var t := Follow(final.effects, p);
            t.Some? && t.value != [] && Find(final.node, t.value) == Find(local, p)
  {
    var placed := FillEffects(cfg, root, requests, rootName);
    var rest := p[|requests[i].source|..];
    CoveredMoves(cfg, requests, rootName, Folds(cfg.rules, Existing(root, rootName).node.entries.Keys), placed, i, p, c);
    FilledHasSlot(cfg, root, requests, rootName, placed, i, rest);
    RequestHasSlot(local, requests[i], p);
  }

  lemma WaitingCarried(cfg: Config, local: Node, m: Merged, p: Path, c: nat)
    requires m.node.Dir? && m.fallbacks != [] && ApplyFallbacks(cfg, m.node, m.fallbacks).Some? && Antichain(m.fallbacks)
    requires !RetakenIn(Sort(SourceKey, m.fallbacks), ApplyFallbacks(cfg, m.node, m.fallbacks).value.effects)
    requires FromLocal(local, [], m.fallbacks) && p != [] && Waiting(m.fallbacks, p, c)
    ensures var final := ApplyFallbacks(cfg, m.node, m.fallbacks).value;
            var t := Follow(final.effects, p);
            t.Some? && t.value != [] && Find(final.node, t.value) == Find(local, p)
  {
    var requests, rootName := ChosenRoot(cfg, m.node, m.fallbacks);
    SameRequests(m.fallbacks);
    var f :| f in m.fallbacks && Carries(f, p, c);
    var i :| 0 <= i < |requests| && requests[i] == f;
    assert LocalAt(local, [], f);
    CarriedHasSlot(cfg, local, m.node, requests, rootName, i, p, c);
  }

  lemma StandingCarried(cfg: Config, m: Merged, t: Path, c: nat)
    requires m.node.Dir? && m.fallbacks != [] && ApplyFallbacks(cfg, m.node, m.fallbacks).Some?
    requires FileAt(m.node, t, c) && forall f :: f in m.fallbacks ==> !(f.source <= t)
    ensures var final := ApplyFallbacks(cfg, m.node, m.fallbacks).value;
            Follow(final.effects, t) == Some(t) && Find(final.node, t) == Find(m.node, t)
  {
    var requests, rootName := ChosenRoot(cfg, m.node, m.fallbacks);
    forall f | f in requests
      ensures !(f.source <= t)
    {
      SortMembers(SourceKey, m.fallbacks, f);
    }
    StaysSettled(cfg, m.node, requests, rootName, t);
    FilledKeepsSlot(cfg, m.node, requests, rootName, t, c);
  }

  /** Over the whole merge: a Local file that was moved, aside or into the fallback directory, is Local's entry, time included. */
  lemma MovedFileIsLocals(cfg: Config, base: Node, local: Node, remote: Node, p: Path, content: nat)
    requires base.Dir? && local.Dir? && remote.Dir? && FileAt(local, p, content) && MergeTrees(cfg, base, local, remote).Some?
    requires !Retaken(cfg, base, local, remote)
    ensures var final := MergeTrees(cfg, base, local, remote).value;
            var t := Follow(final.effects, p);
            t.Some? && t.value != p ==> t.value != [] && Find(final.node, t.value) == Find(local, p)
  {
    var m := Merge(cfg, base, local, remote, [], 0).value;
    var final := ApplyFallbacks(cfg, m.node, m.fallbacks).value;
    MergeFate(cfg, base, local, remote, [], 0, p, content);
    MergeCarried(cfg, base, local, remote, [], 0, p, content, m);
    FollowAppend(m.effects, final.effects, p);
    assert [] + p == p;
    var t := Follow(m.effects, p);
    if t.Some? {
      assert t.value[0..] == t.value;
      if m.fallbacks != [] {
        MergeAntichain(cfg, base, local, remote, [], 0, m);
        MergeSorted(cfg, base, local, remote, [], 0, m);
        if FileAt(m.node, t.value, content) && forall f :: f in m.fallbacks ==> !(f.source <= t.value) {
          StandingCarried(cfg, m, t.value, content);
        } else {
          WaitingCarried(cfg, local, m, p, content);
        }
      }
    }
  }

  /** The trace agrees with the tree, in content and in time. */
  ghost predicate Agrees(trace: Traced, root: Node) {
    FileAt(root, trace.target, trace.content) && Find(root, trace.target).value.mtime == trace.mtime
  }

  /**
    A trace that agreed before the merge and has another target after it still agrees. One whose target
    stayed need not: two sides with the same file keep it with the later of their times.
   */
  lemma MovedKeepsTime(round: Round, local: Node, traces: Traces, source: Path)
    requires Succeeds(round, local) && source in traces && Agrees(traces[source], local)
    requires source in ApplyAll(traces, Lineage.Result(round, local).effects, round.cfg.seedId)
    ensures var now := ApplyAll(traces, Lineage.Result(round, local).effects, round.cfg.seedId)[source];
            now.mtime == traces[source].mtime && (now.target != traces[source].target ==> Agrees(now, Lineage.Result(round, local).node))
  {
    ApplyAllFollows(traces, Lineage.Result(round, local).effects, round.cfg.seedId, source);
    MovedFileIsLocals(round.cfg, round.base, local, round.remote, traces[source].target, traces[source].content);
  }
}
