/** Where the files of both sides are after a merge: no edit is lost, and files can be followed. */
module MergeFates {
  import opened Wrappers
  import opened Bytes
  import opened Sorting
  import opened ConflictNames
  import opened Trees
  import opened TreeMerge
  import opened MergeLaws
  import Paths

  // ---- following a file through the effects ----

  function FollowOne(e: Effect, target: Path): Option<Path> {
    match e
    case Move(path, to) => Some(if path <= target then to + target[|path|..] else target)
    case Drop(path, directory) => if target == path || (directory && path <= target) then None else Some(target)
  }

  function Follow(effects: seq<Effect>, target: Path): Option<Path> {
    if effects == [] then Some(target)
    else
      var next := FollowOne(effects[0], target);
      if next.None? then None else Follow(effects[1..], next.value)
  }

  lemma {:induction false} FollowAppend(a: seq<Effect>, b: seq<Effect>, target: Path)
    ensures Follow(a + b, target) == if Follow(a, target).None? then None else Follow(b, Follow(a, target).value)
  {
    if a == [] {
      assert a + b == b;
    } else {
      assert (a + b)[1..] == a[1..] + b;
      var next := FollowOne(a[0], target);
      if next.Some? {
        FollowAppend(a[1..], b, next.value);
      }
    }
  }

  /** The target lies below `path`, in the entry of one of the names. */
  ghost predicate Below(target: Path, path: Path, names: set<Bytes>) {
    |target| > |path| && path <= target && target[|path|] in names
  }

  ghost predicate EffectsBelow(effects: seq<Effect>, path: Path, names: set<Bytes>) {
    forall e :: e in effects ==> Below(e.path, path, names)
  }

  ghost predicate SourcesBelow(fallbacks: seq<Fallback>, path: Path, names: set<Bytes>) {
    forall f :: f in fallbacks ==> Below(f.source, path, names)
  }

  lemma NotBelow(place: Path, path: Path, names: set<Bytes>, target: Path)
    requires Below(place, path, names) && |target| > |path| && target[|path|] !in names
    ensures !(place <= target)
  {
    assert |place| <= |target| ==> target[..|place|][|path|] == target[|path|];
  }

  /** Effects below other names leave a target alone. */
  lemma {:induction false} FollowElsewhere(effects: seq<Effect>, path: Path, names: set<Bytes>, target: Path)
    requires EffectsBelow(effects, path, names)
    requires |target| > |path| && path <= target && target[|path|] !in names
    ensures Follow(effects, target) == Some(target)
  {
    if effects != [] {
      var e := effects[0];
      assert e in effects;
      NotBelow(e.path, path, names, target);
      forall x | x in effects[1..]
        ensures Below(x.path, path, names)
      {
        assert x in effects;
      }
      FollowElsewhere(effects[1..], path, names, target);
    }
  }

  /** The entry, or what lies below it, is the file. */
  predicate HoldsFile(n: Node, rest: Path, content: nat) {
    if rest == [] then n == File(content) else FileAt(n, rest, content)
  }

  /** Some entry of the list holds the file at the target. */
  ghost predicate InEntries(entries: seq<Entry>, path: Path, target: Path, content: nat) {
    && |target| > |path| && path <= target
    && exists e :: e in entries && e.name == target[|path|] && HoldsFile(e.slot.node, target[|path| + 1..], content)
  }

  /** Some fallback request carries the file at this place away. */
  ghost predicate Carries(f: Fallback, place: Path, content: nat) {
    f.source <= place && HoldsFile(f.slot.node, place[|f.source|..], content)
  }

  ghost predicate Waiting(fallbacks: seq<Fallback>, place: Path, content: nat) {
    exists f :: f in fallbacks && Carries(f, place, content)
  }

  /** The entry at the path or at a directory above it is the same in both trees. */
  ghost predicate Untouched(base: Node, side: Node, path: Path) {
    exists k :: 1 <= k <= |path| && Find(side, path[..k]).Some? && Find(side, path[..k]) == Find(base, path[..k])
  }

  /**
    What became of a Local file: given up because Local had not touched it, or in an entry of the
    result that no fallback request takes away, or waiting with a fallback request.
   */
  ghost predicate Fate(base: Node, local: Node, o: Outcome, path: Path, p: Path, content: nat) {
    var t := Follow(o.effects, path + p);
    match t
    case None => Untouched(base, local, p)
    case Some(target) =>
      || (InEntries(o.entries, path, target, content) && forall f :: f in o.fallbacks ==> !(f.source <= target))
      || (target == path + p && Waiting(o.fallbacks, target, content))
  }

  /** Where the file can have landed: in its own entry or in that of a new name. */
  ghost predicate Landed(o: Outcome, path: Path, p: Path, names: set<Bytes>) {
    p != [] && (Follow(o.effects, path + p).Some? ==> Below(Follow(o.effects, path + p).value, path, names))
  }

  // ---- effects and requests stay below their names ----

  lemma BelowChild(place: Path, path: Path, name: Bytes, names: set<Bytes>)
    requires Below(place, path + [name], names)
    ensures Below(place, path, {name})
  {
    assert place[..|path| + 1] == path + [name];
    assert place[|path|] == place[..|path| + 1][|path|];
    assert place[..|path|] == place[..|path| + 1][..|path|];
  }

  lemma {:induction false} NameBelow(cfg: Config, base: Node, local: Node, remote: Node, path: Path, depth: nat,
                                     name: Bytes, occupied: seq<Bytes>)
    requires base.Dir? && local.Dir? && remote.Dir?
    requires MergeName(cfg, base, local, remote, path, depth, name, occupied).Ok?
    ensures var o := MergeName(cfg, base, local, remote, path, depth, name, occupied).value;
            EffectsBelow(o.effects, path, {name}) && SourcesBelow(o.fallbacks, path, {name})
    decreases local, 1, 0
  {
    var b, l, r := Get(base, name), Get(local, name), Get(remote, name);
    var child := path + [name];
    assert Below(child, path, {name});
    if !LocalConflictCopy(b, l, r) && !Settled(b, l, r) && l.value.node.Dir? {
      var bd := BaseDirectory(b);
      var m := Merge(cfg, bd, l.value.node, r.value.node, child, depth + 1).value;
      MergeBelow(cfg, bd, l.value.node, r.value.node, child, depth + 1, m);
      var names := AllNames(bd, l.value.node, r.value.node);
      forall e | e in m.effects
        ensures Below(e.path, path, {name})
      {
        BelowChild(e.path, path, name, names);
      }
      forall f | f in m.fallbacks
        ensures Below(f.source, path, {name})
      {
        BelowChild(f.source, path, name, names);
      }
    }
  }

  lemma {:induction false} NamesBelow(cfg: Config, base: Node, local: Node, remote: Node, path: Path, depth: nat,
                                      names: seq<Bytes>, occupied: seq<Bytes>)
    requires base.Dir? && local.Dir? && remote.Dir?
    requires MergeNames(cfg, base, local, remote, path, depth, names, occupied).Ok?
    ensures var o := MergeNames(cfg, base, local, remote, path, depth, names, occupied).value;
            EffectsBelow(o.effects, path, Set(names)) && SourcesBelow(o.fallbacks, path, Set(names))
    decreases local, 1, |names|
  {
    if names != [] {
      NameBelow(cfg, base, local, remote, path, depth, names[0], occupied);
      var first := MergeName(cfg, base, local, remote, path, depth, names[0], occupied).value;
      NamesBelow(cfg, base, local, remote, path, depth, names[1..], first.occupied);
      assert Set(names) == {names[0]} + Set(names[1..]) by {
        assert names == [names[0]] + names[1..];
      }
    }
  }

  function Set(names: seq<Bytes>): set<Bytes> {
    set name | name in names
  }

  lemma {:induction false} MergeBelow(cfg: Config, base: Node, local: Node, remote: Node, path: Path, depth: nat, m: Merged)
    requires base.Dir? && local.Dir? && remote.Dir? && Merge(cfg, base, local, remote, path, depth) == Ok(m)
    ensures EffectsBelow(m.effects, path, AllNames(base, local, remote)) && SourcesBelow(m.fallbacks, path, AllNames(base, local, remote))
    decreases local, 2, 0
  {
    var all := AllNames(base, local, remote);
    var o := MergedFrom(cfg, base, local, remote, path, depth, m);
    NamesBelow(cfg, base, local, remote, path, depth, Ordered(all), Ordered(all));
    OrderedSet(all);
  }

  lemma OrderedSet(names: set<Bytes>)
    ensures Set(Ordered(names)) == names
  {
    OrderedNames(names);
  }

  // ---- the fate of a Local file ----

  /** The fate seen from the merged directory. */
  ghost predicate MergedFate(base: Node, local: Node, m: Merged, path: Path, p: Path, content: nat) {
    var t := Follow(m.effects, path + p);
    match t
    case None => Untouched(base, local, p)
    case Some(target) =>
      || (|target| > |path| && path <= target && FileAt(m.node, target[|path|..], content)
          && forall f :: f in m.fallbacks ==> !(f.source <= target))
      || (target == path + p && Waiting(m.fallbacks, target, content))
  }

  lemma UntouchedBelow(base: Node, local: Node, name: Bytes, p: Path)
    requires Get(local, name).Some? && Untouched(BaseDirectory(Get(base, name)), Get(local, name).value.node, p)
    ensures Untouched(base, local, [name] + p)
  {
    var b, l := BaseDirectory(Get(base, name)), Get(local, name).value.node;
    var k :| 1 <= k <= |p| && Find(l, p[..k]).Some? && Find(l, p[..k]) == Find(b, p[..k]);
    var whole := [name] + p;
    assert whole[..k + 1][1..] == p[..k] && whole[..k + 1][0] == name;
  }

  /** The file of a name that was moved beside Remote's entry. */
  lemma MovedFate(base: Node, local: Node, o: Outcome, path: Path, name: Bytes, copy: Bytes, l: Slot, p: Path, content: nat)
    requires HoldsFile(l.node, p, content) && o.effects == [Move(path + [name], path + [copy])] && o.fallbacks == []
    requires Entry(copy, l) in o.entries
    ensures Fate(base, local, o, path, [name] + p, content)
    ensures Landed(o, path, [name] + p, {copy})
  {
    var place, child, target := path + ([name] + p), path + [name], path + [copy] + p;
    assert place == child + p && child <= place && place[|child|..] == p;
    assert target[|path|] == copy && target[|path| + 1..] == p;
    assert Follow(o.effects, place) == Some(target);
    assert InEntries(o.entries, path, target, content);
  }

  /** The file of a name that waits for the fallback directory. */
  lemma WaitingFate(base: Node, local: Node, o: Outcome, path: Path, name: Bytes, l: Slot, p: Path, content: nat)
    requires HoldsFile(l.node, p, content) && o.effects == [] && o.fallbacks == [Fallback(path + [name], name, l)]
    ensures Fate(base, local, o, path, [name] + p, content)
    ensures Landed(o, path, [name] + p, {name})
  {
    var place, child := path + ([name] + p), path + [name];
    assert place == child + p && child <= place && place[|child|..] == p;
    assert o.fallbacks[0] in o.fallbacks && Carries(o.fallbacks[0], place, content);
  }

  /** The file of a name that stepped aside. */
  lemma AsideFate(cfg: Config, base: Node, local: Node, remote: Node, path: Path, name: Bytes, occupied: seq<Bytes>, p: Path, content: nat, o: Outcome)
    requires Get(local, name).Some? && HoldsFile(Get(local, name).value.node, p, content)
    requires StepAside(cfg, path, name, Get(local, name).value, Get(remote, name), occupied) == Ok(o)
    ensures Fate(base, local, o, path, [name] + p, content) && Landed(o, path, [name] + p, {name} + Added(occupied, o.occupied))
  {
    var l := Get(local, name).value;
    if o.fallbacks != [] {
      WaitingFate(base, local, o, path, name, l, p, content);
    } else {
      var copy := o.occupied[|occupied|];
      assert o.occupied[|occupied|..] == [copy];
      MovedFate(base, local, o, path, name, copy, l, p, content);
    }
  }

  /** The file of a name of which one side was taken. */
  lemma SettledFate(base: Node, local: Node, remote: Node, path: Path, name: Bytes, occupied: seq<Bytes>, p: Path, content: nat)
    requires Get(local, name).Some? && HoldsFile(Get(local, name).value.node, p, content)
    requires Settled(Get(base, name), Get(local, name), Get(remote, name))
    ensures var b, l, r := Get(base, name), Get(local, name), Get(remote, name);
            var drops := if l == b && r != b then [Drop(path + [name], l.Some? && l.value.node.Dir?)] else [];
            var o := Outcome(ListOf(name, Settle(b, l, r)), drops, [], occupied);
            Fate(base, local, o, path, [name] + p, content) && Landed(o, path, [name] + p, {name} + Added(occupied, o.occupied))
  {
    var b, l, r := Get(base, name), Get(local, name), Get(remote, name);
    var drops := if l == b && r != b then [Drop(path + [name], l.Some? && l.value.node.Dir?)] else [];
    var o := Outcome(ListOf(name, Settle(b, l, r)), drops, [], occupied);
    var whole := [name] + p;
    var place := path + whole;
    assert place[|path|] == name && place[|path| + 1..] == p && path + [name] <= place;
    if l == b && r != b {
      assert p == [] ==> place == path + [name];
      assert Follow(o.effects, place) == None;
      assert whole[..1] == [name];
    } else {
      assert Entry(name, l.value) in o.entries;
      assert InEntries(o.entries, path, place, content);
    }
  }

  lemma DirectoryFate(base: Node, local: Node, m: Merged, path: Path, name: Bytes, slot: Slot, occupied: seq<Bytes>, p: Path, content: nat)
    requires Get(local, name).Some? && p != [] && slot.node == m.node
    requires MergedFate(BaseDirectory(Get(base, name)), Get(local, name).value.node, m, path + [name], p, content)
    ensures var o := Outcome([Entry(name, slot)], m.effects, m.fallbacks, occupied);
            Fate(base, local, o, path, [name] + p, content) && Landed(o, path, [name] + p, {name} + Added(occupied, o.occupied))
  {
    var o := Outcome([Entry(name, slot)], m.effects, m.fallbacks, occupied);
    var child := path + [name];
    assert child + p == path + ([name] + p);
    var t := Follow(m.effects, child + p);
    if t.None? {
      UntouchedBelow(base, local, name, p);
    } else {
      var target := t.value;
      assert target[..|child|] == child;
      assert target[|path|] == target[..|child|][|path|] == name;
      assert target[..|path|] == target[..|child|][..|path|];
      if FileAt(m.node, target[|child|..], content) && forall f :: f in m.fallbacks ==> !(f.source <= target) {
        assert Entry(name, slot) in o.entries && target[|path| + 1..] == target[|child|..];
        assert InEntries(o.entries, path, target, content);
      }
    }
  }

  /** One name's files. */
  lemma {:induction false} NameFate(cfg: Config, base: Node, local: Node, remote: Node, path: Path, depth: nat,
                                    name: Bytes, occupied: seq<Bytes>, p: Path, content: nat, o: Outcome)
    requires base.Dir? && local.Dir? && remote.Dir?
    requires Get(local, name).Some? && HoldsFile(Get(local, name).value.node, p, content)
    requires MergeName(cfg, base, local, remote, path, depth, name, occupied) == Ok(o)
    ensures Fate(base, local, o, path, [name] + p, content) && Landed(o, path, [name] + p, {name} + Added(occupied, o.occupied))
    decreases local, 1, 0
  {
    var b, l, r := Get(base, name), Get(local, name), Get(remote, name);
    if LocalConflictCopy(b, l, r) {
      AsideFate(cfg, base, local, remote, path, name, occupied, p, content, o);
    } else if Settled(b, l, r) {
      SettledFate(base, local, remote, path, name, occupied, p, content);
      var drops := if l == b && r != b then [Drop(path + [name], l.Some? && l.value.node.Dir?)] else [];
      assert drops + [] == drops;
    } else {
      CombinedOutcome(cfg, base, local, remote, path, depth, name, occupied);
      CombinedFate(cfg, base, local, remote, path, depth, name, occupied, p, content);
    }
  }

  lemma {:induction false} CombinedFate(cfg: Config, base: Node, local: Node, remote: Node, path: Path, depth: nat,
                                        name: Bytes, occupied: seq<Bytes>, p: Path, content: nat)
    requires Get(local, name).Some? && HoldsFile(Get(local, name).value.node, p, content) && local.Dir?
    requires MergeBoth(cfg, Get(base, name), Get(local, name).value, Get(remote, name), path + [name], depth).Ok?
    ensures var both := MergeBoth(cfg, Get(base, name), Get(local, name).value, Get(remote, name), path + [name], depth).value;
            var o := Outcome([Entry(name, both.slot.value)], both.effects, both.fallbacks, occupied);
            Fate(base, local, o, path, [name] + p, content) && Landed(o, path, [name] + p, {name} + Added(occupied, o.occupied))
    decreases local, 0, 0
  {
    var bd, l, r := BaseDirectory(Get(base, name)), Get(local, name).value, Get(remote, name).value;
    var both := MergeBoth(cfg, Get(base, name), l, Some(r), path + [name], depth).value;
    if l.node.Dir? {
      var merged := Merge(cfg, bd, l.node, r.node, path + [name], depth + 1);
      MergeFate(cfg, bd, l.node, r.node, path + [name], depth + 1, p, content);
      DirectoryFate(base, local, merged.value, path, name, both.slot.value, occupied, p, content);
    } else {
      FileFate(base, local, path, name, both.slot.value, occupied, p, content);
    }
  }

  lemma FileFate(base: Node, local: Node, path: Path, name: Bytes, slot: Slot, occupied: seq<Bytes>, p: Path, content: nat)
    requires HoldsFile(slot.node, p, content)
    ensures var o := Outcome([Entry(name, slot)], [], [], occupied);
            Fate(base, local, o, path, [name] + p, content) && Landed(o, path, [name] + p, {name} + Added(occupied, o.occupied))
  {
    var o := Outcome([Entry(name, slot)], [], [], occupied);
    var place := path + ([name] + p);
    assert place[|path|] == name && place[|path| + 1..] == p;
    assert Entry(name, slot) in o.entries;
    assert InEntries(o.entries, path, place, content);
  }

  /** A file of the first name stays where it landed while the other names are worked off. */
  lemma FateFirst(rules: Rules, base: Node, local: Node, first: Outcome, rest: Outcome, path: Path,
                  names: seq<Bytes>, occupied: seq<Bytes>, p: Path, content: nat)
    requires Ready(rules, names, occupied) && names != [] && p != [] && p[0] == names[0]
    requires occupied <= first.occupied <= rest.occupied && FoldDistinct(rules, rest.occupied) && FoldDistinct(rules, first.occupied)
    requires Fate(base, local, first, path, p, content)
    requires Landed(first, path, p, {names[0]} + Added(occupied, first.occupied))
    requires EffectsBelow(rest.effects, path, Set(names[1..])) && SourcesBelow(rest.fallbacks, path, Set(names[1..]))
    ensures Fate(base, local, Append(first, rest), path, p, content)
    ensures Landed(Append(first, rest), path, p, Set(names) + Added(occupied, rest.occupied))
  {
    var t := Follow(first.effects, path + p);
    FollowAppend(first.effects, rest.effects, path + p);
    ReadyRest(rules, names, occupied, first.occupied);
    AddedJoins(occupied, first.occupied, rest.occupied);
    if t.Some? {
      var target := t.value;
      assert target[|path|] !in Set(names[1..]) by {
        if target[|path|] in Added(occupied, first.occupied) {
          AddedElsewhere(rules, occupied, first.occupied, target[|path|]);
        }
      }
      FollowElsewhere(rest.effects, path, Set(names[1..]), target);
      forall f | f in rest.fallbacks
        ensures !(f.source <= target)
      {
        NotBelow(f.source, path, Set(names[1..]), target);
      }
      assert Waiting(first.fallbacks, target, content) ==> Waiting(first.fallbacks + rest.fallbacks, target, content);
    }
  }

  /** A file of a later name is not touched while the first name is worked off. */
  lemma FateLater(rules: Rules, base: Node, local: Node, first: Outcome, rest: Outcome, path: Path,
                  names: seq<Bytes>, occupied: seq<Bytes>, p: Path, content: nat)
    requires Ready(rules, names, occupied) && names != [] && p != [] && p[0] in names[1..]
    requires occupied <= first.occupied <= rest.occupied && FoldDistinct(rules, rest.occupied) && FoldDistinct(rules, first.occupied)
    requires Fate(base, local, rest, path, p, content)
    requires Landed(rest, path, p, Set(names[1..]) + Added(first.occupied, rest.occupied))
    requires EffectsBelow(first.effects, path, {names[0]}) && SourcesBelow(first.fallbacks, path, {names[0]})
    ensures Fate(base, local, Append(first, rest), path, p, content)
    ensures Landed(Append(first, rest), path, p, Set(names) + Added(occupied, rest.occupied))
  {
    var place := path + p;
    FollowAppend(first.effects, rest.effects, place);
    ReadyRest(rules, names, occupied, first.occupied);
    AddedJoins(occupied, first.occupied, rest.occupied);
    assert place[|path|] == p[0];
    FollowElsewhere(first.effects, path, {names[0]}, place);
    var t := Follow(rest.effects, place);
    if t.Some? {
      var target := t.value;
      assert target[|path|] != names[0] by {
        if target[|path|] in Added(first.occupied, rest.occupied) {
          AddedElsewhere(rules, first.occupied, rest.occupied, target[|path|]);
          assert names[0] in first.occupied;
        }
      }
      forall f | f in first.fallbacks
        ensures !(f.source <= target)
      {
        NotBelow(f.source, path, {names[0]}, target);
      }
      assert Waiting(rest.fallbacks, target, content) ==> Waiting(first.fallbacks + rest.fallbacks, target, content);
      assert InEntries(rest.entries, path, target, content) ==> InEntries(first.entries + rest.entries, path, target, content);
    }
  }

  lemma {:induction false} NamesFate(cfg: Config, base: Node, local: Node, remote: Node, path: Path, depth: nat,
                                     names: seq<Bytes>, occupied: seq<Bytes>, p: Path, content: nat)
    requires base.Dir? && local.Dir? && remote.Dir? && Ready(cfg.rules, names, occupied)
    requires FileAt(local, p, content) && p[0] in names
    requires MergeNames(cfg, base, local, remote, path, depth, names, occupied).Ok?
    ensures var o := MergeNames(cfg, base, local, remote, path, depth, names, occupied).value;
            Fate(base, local, o, path, p, content) && Landed(o, path, p, Set(names) + Added(occupied, o.occupied))
    decreases local, 1, |names|
  {
    var name := names[0];
    NameBelow(cfg, base, local, remote, path, depth, name, occupied);
    var first := MergeName(cfg, base, local, remote, path, depth, name, occupied).value;
    NameShape(cfg, base, local, remote, path, depth, name, occupied, first);
    ReadyRest(cfg.rules, names, occupied, first.occupied);
    NamesShape(cfg, base, local, remote, path, depth, names[1..], first.occupied);
    NamesBelow(cfg, base, local, remote, path, depth, names[1..], first.occupied);
    var rest := MergeNames(cfg, base, local, remote, path, depth, names[1..], first.occupied).value;
    if p[0] == name {
      NameFate(cfg, base, local, remote, path, depth, name, occupied, p[1..], content, first);
      assert [name] + p[1..] == p;
      FateFirst(cfg.rules, base, local, first, rest, path, names, occupied, p, content);
    } else {
      NamesFate(cfg, base, local, remote, path, depth, names[1..], first.occupied, p, content);
      FateLater(cfg.rules, base, local, first, rest, path, names, occupied, p, content);
    }
  }

  /** What the list of entries holds, the directory made of it holds. */
  lemma InNode(entries: seq<Entry>, n: Node, path: Path, target: Path, content: nat)
    requires Makes(entries, n) && InEntries(entries, path, target, content)
    ensures FileAt(n, target[|path|..], content)
  {
    var e :| e in entries && e.name == target[|path|] && HoldsFile(e.slot.node, target[|path| + 1..], content);
    assert Get(n, e.name) == Some(e.slot);
    assert target[|path|..][1..] == target[|path| + 1..];
  }

  /**
    No Local edit is lost: every Local file is, with its content, where the effects take it, or
    waits for the fallback directory, unless Local never touched it.
   */
  lemma {:induction false} MergeFate(cfg: Config, base: Node, local: Node, remote: Node, path: Path, depth: nat, p: Path, content: nat)
    requires base.Dir? && local.Dir? && remote.Dir? && FileAt(local, p, content)
    requires Merge(cfg, base, local, remote, path, depth).Ok?
    ensures MergedFate(base, local, Merge(cfg, base, local, remote, path, depth).value, path, p, content)
    decreases local, 2, 0
  {
    var all := AllNames(base, local, remote);
    var names := Ordered(all);
    OrderedReady(cfg.rules, all);
    OrderedSet(all);
    assert p[0] in Set(names);
    NamesFate(cfg, base, local, remote, path, depth, names, names, p, content);
    FateOfNode(cfg, base, local, MergeNames(cfg, base, local, remote, path, depth, names, names).value, path, p, content);
  }

  lemma FateOfNode(cfg: Config, base: Node, local: Node, o: Outcome, path: Path, p: Path, content: nat)
    requires CanonicalList(cfg.rules, Sort(NameOf, o.entries)) && Fate(base, local, o, path, p, content)
    ensures MergedFate(base, local, Merged(Dir(MapOf(Sort(NameOf, o.entries))), o.effects, o.fallbacks), path, p, content)
  {
    var n := Dir(MapOf(Sort(NameOf, o.entries)));
    ListMakes(cfg.rules, o.entries);
    var t := Follow(o.effects, path + p);
    if t.Some? && InEntries(o.entries, path, t.value, content) {
      InNode(o.entries, n, path, t.value, content);
    }
  }
}
