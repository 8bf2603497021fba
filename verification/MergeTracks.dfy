/** Remote's files stay, Local's files never meet, and fallback requests never overlap. */
module MergeTracks {
  import opened Wrappers
  import opened Bytes
  import opened Sorting
  import opened ConflictNames
  import opened Trees
  import opened TreeMerge
  import opened MergeLaws
  import opened MergeFates
  import Paths

  // ---- Remote's files ----

  /** Some entry of the list holds the file at the path below the directory. */
  ghost predicate Holds(entries: seq<Entry>, p: Path, content: nat) {
    p != [] && exists e :: e in entries && e.name == p[0] && HoldsFile(e.slot.node, p[1..], content)
  }

  lemma FirstTouched(base: Node, side: Node, p: Path)
    requires p != [] && !Untouched(base, side, p) && Get(side, p[0]).Some?
    ensures Get(side, p[0]) != Get(base, p[0])
  {
    assert p[..1] == [p[0]];
    assert Find(side, p[..1]) == Get(side, p[0]) && Find(base, p[..1]) == Get(base, p[0]);
  }

  lemma TouchedBelow(base: Node, side: Node, p: Path)
    requires |p| > 1 && !Untouched(base, side, p) && Get(side, p[0]).Some?
    ensures !Untouched(BaseDirectory(Get(base, p[0])), Get(side, p[0]).value.node, p[1..])
  {
    assert [p[0]] + p[1..] == p;
    if Untouched(BaseDirectory(Get(base, p[0])), Get(side, p[0]).value.node, p[1..]) {
      UntouchedBelow(base, side, p[0], p[1..]);
    }
  }

  lemma {:induction false} NameKeepsRemote(cfg: Config, base: Node, local: Node, remote: Node, path: Path, depth: nat,
                                           occupied: seq<Bytes>, p: Path, content: nat)
    requires base.Dir? && local.Dir? && remote.Dir? && FileAt(remote, p, content) && !Untouched(base, remote, p)
    requires MergeName(cfg, base, local, remote, path, depth, p[0], occupied).Ok?
    ensures Holds(MergeName(cfg, base, local, remote, path, depth, p[0], occupied).value.entries, p, content)
    decreases local, 1, 0
  {
    var name := p[0];
    var b, l, r := Get(base, name), Get(local, name), Get(remote, name);
    var o := MergeName(cfg, base, local, remote, path, depth, name, occupied).value;
    FirstTouched(base, remote, p);
    if LocalConflictCopy(b, l, r) || Settled(b, l, r) {
      assert Entry(name, r.value) in o.entries;
    } else {
      CombinedOutcome(cfg, base, local, remote, path, depth, name, occupied);
      CombinedKeepsRemote(cfg, base, local, remote, path, depth, p, content);
      var both := MergeBoth(cfg, b, l.value, r, path + [name], depth).value;
      assert Entry(name, both.slot.value) in o.entries;
    }
  }

  lemma {:induction false} CombinedKeepsRemote(cfg: Config, base: Node, local: Node, remote: Node, path: Path, depth: nat, p: Path, content: nat)
    requires FileAt(remote, p, content) && !Untouched(base, remote, p) && Get(local, p[0]).Some? && local.Dir?
    requires MergeBoth(cfg, Get(base, p[0]), Get(local, p[0]).value, Get(remote, p[0]), path + [p[0]], depth).Ok?
    ensures var both := MergeBoth(cfg, Get(base, p[0]), Get(local, p[0]).value, Get(remote, p[0]), path + [p[0]], depth).value;
            both.slot.Some? && HoldsFile(both.slot.value.node, p[1..], content)
    decreases local, 0, 0
  {
    var l, r := Get(local, p[0]).value, Get(remote, p[0]).value;
    if l.node.Dir? {
      TouchedBelow(base, remote, p);
      MergeKeepsRemote(cfg, BaseDirectory(Get(base, p[0])), l.node, r.node, path + [p[0]], depth + 1, p[1..], content);
    }
  }

  lemma {:induction false} NamesKeepRemote(cfg: Config, base: Node, local: Node, remote: Node, path: Path, depth: nat,
                                           names: seq<Bytes>, occupied: seq<Bytes>, p: Path, content: nat)
    requires base.Dir? && local.Dir? && remote.Dir? && FileAt(remote, p, content) && !Untouched(base, remote, p)
    requires p[0] in names && MergeNames(cfg, base, local, remote, path, depth, names, occupied).Ok?
    ensures Holds(MergeNames(cfg, base, local, remote, path, depth, names, occupied).value.entries, p, content)
    decreases local, 1, |names|
  {
    var first := MergeName(cfg, base, local, remote, path, depth, names[0], occupied).value;
    if p[0] == names[0] {
      NameKeepsRemote(cfg, base, local, remote, path, depth, occupied, p, content);
    } else {
      NamesKeepRemote(cfg, base, local, remote, path, depth, names[1..], first.occupied, p, content);
    }
  }

  /** No Remote edit is lost: every Remote file that Remote touched is at its own path with its own content. */
  lemma {:induction false} MergeKeepsRemote(cfg: Config, base: Node, local: Node, remote: Node, path: Path, depth: nat, p: Path, content: nat)
    requires base.Dir? && local.Dir? && remote.Dir? && FileAt(remote, p, content) && !Untouched(base, remote, p)
    requires Merge(cfg, base, local, remote, path, depth).Ok?
    ensures FileAt(Merge(cfg, base, local, remote, path, depth).value.node, p, content)
    decreases local, 2, 0
  {
    var names := Ordered(AllNames(base, local, remote));
    OrderedSet(AllNames(base, local, remote));
    assert p[0] in Set(names);
    NamesKeepRemote(cfg, base, local, remote, path, depth, names, names, p, content);
    var o := MergeNames(cfg, base, local, remote, path, depth, names, names).value;
    ListMakes(cfg.rules, o.entries);
    HoldsInNode(o.entries, Dir(MapOf(Sort(NameOf, o.entries))), p, content);
  }

  lemma HoldsInNode(entries: seq<Entry>, n: Node, p: Path, content: nat)
    requires Makes(entries, n) && Holds(entries, p, content)
    ensures FileAt(n, p, content)
  {
    var e :| e in entries && e.name == p[0] && HoldsFile(e.slot.node, p[1..], content);
    assert Get(n, e.name) == Some(e.slot);
  }

  // ---- two files never meet ----

  ghost predicate Apart(effects: seq<Effect>, a: Path, b: Path) {
    Follow(effects, a).Some? && Follow(effects, b).Some? ==> Follow(effects, a) != Follow(effects, b)
  }

  lemma MovedApart(child: Path, to: Path, p: Path, q: Path)
    requires p != q
    ensures Apart([Move(child, to)], child + p, child + q) && Apart([], child + p, child + q)
  {
    assert (child + p)[|child|..] == p && (child + q)[|child|..] == q;
    assert (to + p)[|to|..] == p && (to + q)[|to|..] == q;
  }

  lemma {:induction false} NameApart(cfg: Config, base: Node, local: Node, remote: Node, path: Path, depth: nat, name: Bytes,
                                     occupied: seq<Bytes>, p: Path, c: nat, q: Path, d: nat, o: Outcome)
    requires base.Dir? && local.Dir? && remote.Dir? && Get(local, name).Some? && p != q
    requires HoldsFile(Get(local, name).value.node, p, c) && HoldsFile(Get(local, name).value.node, q, d)
    requires MergeName(cfg, base, local, remote, path, depth, name, occupied) == Ok(o)
    ensures Apart(o.effects, (path + [name]) + p, (path + [name]) + q)
    decreases local, 0, 0
  {
    var b, l, r := Get(base, name), Get(local, name), Get(remote, name);
    var child := path + [name];
    if LocalConflictCopy(b, l, r) {
      MovedApart(child, if o.fallbacks == [] then o.effects[0].target else [], p, q);
    } else if Settled(b, l, r) {
      MovedApart(child, [], p, q);
    } else {
      CombinedOutcome(cfg, base, local, remote, path, depth, name, occupied);
      CombinedApart(cfg, b, l.value, r, child, depth, p, c, q, d, MergeBoth(cfg, b, l.value, r, child, depth).value);
    }
  }

  lemma {:induction false} CombinedApart(cfg: Config, b: Option<Slot>, l: Slot, r: Option<Slot>, child: Path, depth: nat,
                                         p: Path, c: nat, q: Path, d: nat, both: MergedEntry)
    requires HoldsFile(l.node, p, c) && HoldsFile(l.node, q, d) && p != q
    requires MergeBoth(cfg, b, l, r, child, depth) == Ok(both)
    ensures Apart(both.effects, child + p, child + q)
    decreases l.node, 4, 0
  {
    if l.node.Dir? {
      MergeApart(cfg, BaseDirectory(b), l.node, r.value.node, child, depth + 1, p, c, q, d,
                 Merge(cfg, BaseDirectory(b), l.node, r.value.node, child, depth + 1).value);
    }
  }

  lemma LandedApart(rules: Rules, first: Outcome, rest: Outcome, path: Path, names: seq<Bytes>, occupied: seq<Bytes>, p: Path, q: Path)
    requires Ready(rules, names, occupied) && names != [] && p != [] && q != [] && p[0] == names[0] && q[0] in names[1..]
    requires occupied <= first.occupied <= rest.occupied && FoldDistinct(rules, rest.occupied) && FoldDistinct(rules, first.occupied)
    requires Landed(first, path, p, {names[0]} + Added(occupied, first.occupied))
    requires Landed(rest, path, q, Set(names[1..]) + Added(first.occupied, rest.occupied))
    requires EffectsBelow(first.effects, path, {names[0]}) && EffectsBelow(rest.effects, path, Set(names[1..]))
    ensures Apart(first.effects + rest.effects, path + p, path + q)
  {
    ReadyRest(rules, names, occupied, first.occupied);
    FollowAppend(first.effects, rest.effects, path + p);
    FollowAppend(first.effects, rest.effects, path + q);
    assert (path + q)[|path|] == q[0];
    FollowElsewhere(first.effects, path, {names[0]}, path + q);
    var t, u := Follow(first.effects, path + p), Follow(rest.effects, path + q);
    if t.Some? {
      var x := t.value[|path|];
      assert x !in Set(names[1..]) + Added(first.occupied, rest.occupied) by {
        if x in Added(occupied, first.occupied) {
          AddedElsewhere(rules, occupied, first.occupied, x);
        }
        if x in Added(first.occupied, rest.occupied) {
          AddedElsewhere(rules, first.occupied, rest.occupied, x);
        }
        assert names[0] in first.occupied;
      }
      FollowElsewhere(rest.effects, path, Set(names[1..]), t.value);
    }
  }

  lemma {:induction false} NamesApart(cfg: Config, base: Node, local: Node, remote: Node, path: Path, depth: nat, names: seq<Bytes>,
                                      occupied: seq<Bytes>, p: Path, c: nat, q: Path, d: nat)
    requires base.Dir? && local.Dir? && remote.Dir? && Ready(cfg.rules, names, occupied)
    requires FileAt(local, p, c) && FileAt(local, q, d) && p != q && p[0] in names && q[0] in names
    requires MergeNames(cfg, base, local, remote, path, depth, names, occupied).Ok?
    ensures Apart(MergeNames(cfg, base, local, remote, path, depth, names, occupied).value.effects, path + p, path + q)
    decreases local, 2, |names|
  {
    var name := names[0];
    NameBelow(cfg, base, local, remote, path, depth, name, occupied);
    var first := MergeName(cfg, base, local, remote, path, depth, name, occupied).value;
    NameShape(cfg, base, local, remote, path, depth, name, occupied, first);
    ReadyRest(cfg.rules, names, occupied, first.occupied);
    NamesShape(cfg, base, local, remote, path, depth, names[1..], first.occupied);
    NamesBelow(cfg, base, local, remote, path, depth, names[1..], first.occupied);
    var rest := MergeNames(cfg, base, local, remote, path, depth, names[1..], first.occupied).value;
    if p[0] == name && q[0] == name {
      FirstApart(cfg, base, local, remote, path, depth, names, occupied, p, c, q, d, first, rest);
    } else if p[0] == name {
      FirstAndLater(cfg, base, local, remote, path, depth, names, occupied, p, c, q, d, first, rest);
    } else if q[0] == name {
      FirstAndLater(cfg, base, local, remote, path, depth, names, occupied, q, d, p, c, first, rest);
    } else {
      NamesApart(cfg, base, local, remote, path, depth, names[1..], first.occupied, p, c, q, d);
      LaterApart(first.effects, rest.effects, path, name, p, q);
    }
  }

  /** A file of the first name and a file of a later one. */
  lemma FirstAndLater(cfg: Config, base: Node, local: Node, remote: Node, path: Path, depth: nat, names: seq<Bytes>, occupied: seq<Bytes>,
                      p: Path, c: nat, q: Path, d: nat, first: Outcome, rest: Outcome)
    requires base.Dir? && local.Dir? && remote.Dir? && Ready(cfg.rules, names, occupied) && names != []
    requires FileAt(local, p, c) && FileAt(local, q, d) && p[0] == names[0] && q[0] in names[1..]
    requires MergeName(cfg, base, local, remote, path, depth, names[0], occupied) == Ok(first)
    requires MergeNames(cfg, base, local, remote, path, depth, names[1..], first.occupied) == Ok(rest)
    requires Ready(cfg.rules, names[1..], first.occupied) && occupied <= first.occupied <= rest.occupied
    requires FoldDistinct(cfg.rules, rest.occupied) && FoldDistinct(cfg.rules, first.occupied)
    requires EffectsBelow(first.effects, path, {names[0]}) && EffectsBelow(rest.effects, path, Set(names[1..]))
    ensures Apart(first.effects + rest.effects, path + p, path + q)
  {
    NameFate(cfg, base, local, remote, path, depth, names[0], occupied, p[1..], c, first);
    assert [names[0]] + p[1..] == p;
    NamesFate(cfg, base, local, remote, path, depth, names[1..], first.occupied, q, d);
    LandedApart(cfg.rules, first, rest, path, names, occupied, p, q);
  }

  lemma LaterApart(first: seq<Effect>, rest: seq<Effect>, path: Path, name: Bytes, p: Path, q: Path)
    requires p != [] && q != [] && p[0] != name && q[0] != name && EffectsBelow(first, path, {name})
    requires Apart(rest, path + p, path + q)
    ensures Apart(first + rest, path + p, path + q)
  {
    assert (path + p)[|path|] == p[0] && (path + q)[|path|] == q[0];
    FollowAppend(first, rest, path + p);
    FollowAppend(first, rest, path + q);
    FollowElsewhere(first, path, {name}, path + p);
    FollowElsewhere(first, path, {name}, path + q);
  }

  lemma Regroup(path: Path, p: Path)
    requires p != []
    ensures path + p == (path + [p[0]]) + p[1..] && [p[0]] + p[1..] == p
  {
  }

  lemma FirstStayApart(rules: Rules, first: Outcome, rest: Outcome, path: Path, names: seq<Bytes>, occupied: seq<Bytes>, p: Path, q: Path)
    requires Ready(rules, names, occupied) && names != [] && p != [] && q != [] && p[0] == q[0] == names[0]
    requires Shape(rules, first, [names[0]], occupied) && EffectsBelow(rest.effects, path, Set(names[1..]))
    requires Landed(first, path, p, {names[0]} + Added(occupied, first.occupied))
    requires Landed(first, path, q, {names[0]} + Added(occupied, first.occupied))
    requires Apart(first.effects, path + p, path + q)
    ensures Apart(first.effects + rest.effects, path + p, path + q)
  {
    StillApart(rules, first, rest, path, names, occupied, p);
    StillApart(rules, first, rest, path, names, occupied, q);
  }

  lemma {:induction false} FirstApart(cfg: Config, base: Node, local: Node, remote: Node, path: Path, depth: nat, names: seq<Bytes>,
                                      occupied: seq<Bytes>, p: Path, c: nat, q: Path, d: nat, first: Outcome, rest: Outcome)
    requires base.Dir? && local.Dir? && remote.Dir? && Ready(cfg.rules, names, occupied) && names != []
    requires FileAt(local, p, c) && FileAt(local, q, d) && p != q && p[0] == q[0] == names[0]
    requires MergeName(cfg, base, local, remote, path, depth, names[0], occupied) == Ok(first)
    requires Shape(cfg.rules, first, [names[0]], occupied) && EffectsBelow(rest.effects, path, Set(names[1..]))
    ensures Apart(first.effects + rest.effects, path + p, path + q)
    decreases local, 1, 0
  {
    Regroup(path, p);
    Regroup(path, q);
    NameFate(cfg, base, local, remote, path, depth, names[0], occupied, p[1..], c, first);
    NameFate(cfg, base, local, remote, path, depth, names[0], occupied, q[1..], d, first);
    NameApart(cfg, base, local, remote, path, depth, names[0], occupied, p[1..], c, q[1..], d, first);
    FirstStayApart(cfg.rules, first, rest, path, names, occupied, p, q);
  }

  lemma StillApart(rules: Rules, first: Outcome, rest: Outcome, path: Path, names: seq<Bytes>, occupied: seq<Bytes>, p: Path)
    requires Ready(rules, names, occupied) && names != [] && p != [] && p[0] == names[0]
    requires occupied <= first.occupied && FoldDistinct(rules, first.occupied)
    requires Landed(first, path, p, {names[0]} + Added(occupied, first.occupied))
    requires EffectsBelow(rest.effects, path, Set(names[1..]))
    ensures Follow(first.effects + rest.effects, path + p) == Follow(first.effects, path + p)
  {
    FollowAppend(first.effects, rest.effects, path + p);
    ReadyRest(rules, names, occupied, first.occupied);
    var t := Follow(first.effects, path + p);
    if t.Some? {
      var x := t.value[|path|];
      assert x !in Set(names[1..]) by {
        if x in Added(occupied, first.occupied) {
          AddedElsewhere(rules, occupied, first.occupied, x);
        }
      }
      FollowElsewhere(rest.effects, path, Set(names[1..]), t.value);
    }
  }

  lemma LocalNames(rules: Rules, base: Node, local: Node, remote: Node, p: Path, c: nat)
    requires base.Dir? && local.Dir? && remote.Dir? && FileAt(local, p, c) && FoldUnique(rules, AllNames(base, local, remote))
    ensures var names := Ordered(AllNames(base, local, remote)); p[0] in names && Ready(rules, names, names)
  {
    OrderedReady(rules, AllNames(base, local, remote));
    OrderedNames(AllNames(base, local, remote));
  }

  /** Two Local files never end at the same place. */
  lemma {:induction false} MergeApart(cfg: Config, base: Node, local: Node, remote: Node, path: Path, depth: nat, p: Path, c: nat, q: Path, d: nat, m: Merged)
    requires base.Dir? && local.Dir? && remote.Dir? && FileAt(local, p, c) && FileAt(local, q, d) && p != q
    requires Merge(cfg, base, local, remote, path, depth) == Ok(m)
    ensures Apart(m.effects, path + p, path + q)
    decreases local, 3, 0
  {
    var names := Ordered(AllNames(base, local, remote));
    var o := MergedFrom(cfg, base, local, remote, path, depth, m);
    LocalNames(cfg.rules, base, local, remote, p, c);
    LocalNames(cfg.rules, base, local, remote, q, d);
    NamesApart(cfg, base, local, remote, path, depth, names, names, p, c, q, d);
  }

  // ---- fallback requests never overlap ----

  ghost predicate Antichain(fallbacks: seq<Fallback>) {
    forall i, j :: 0 <= i < |fallbacks| && 0 <= j < |fallbacks| && i != j ==> !(fallbacks[i].source <= fallbacks[j].source)
  }

  lemma AntichainAppend(a: seq<Fallback>, b: seq<Fallback>, path: Path, s: set<Bytes>, t: set<Bytes>)
    requires Antichain(a) && Antichain(b) && SourcesBelow(a, path, s) && SourcesBelow(b, path, t) && s !! t
    ensures Antichain(a + b)
  {
    var all := a + b;
    forall i, j | 0 <= i < |all| && 0 <= j < |all| && i != j
      ensures !(all[i].source <= all[j].source)
    {
      if i < |a| && j < |a| {
        assert !(a[i].source <= a[j].source);
      } else if i >= |a| && j >= |a| {
        assert !(b[i - |a|].source <= b[j - |a|].source);
      } else if i < |a| {
        assert all[i] in a && all[j] in b;
        NotBelow(all[i].source, path, s, all[j].source);
      } else {
        assert all[i] in b && all[j] in a;
        NotBelow(all[i].source, path, t, all[j].source);
      }
    }
  }

  lemma {:induction false} NameAntichain(cfg: Config, base: Node, local: Node, remote: Node, path: Path, depth: nat, name: Bytes, occupied: seq<Bytes>)
    requires base.Dir? && local.Dir? && remote.Dir?
    requires MergeName(cfg, base, local, remote, path, depth, name, occupied).Ok?
    ensures Antichain(MergeName(cfg, base, local, remote, path, depth, name, occupied).value.fallbacks)
    decreases local, 1, 0
  {
    var b, l, r := Get(base, name), Get(local, name), Get(remote, name);
    if !LocalConflictCopy(b, l, r) && !Settled(b, l, r) {
      CombinedOutcome(cfg, base, local, remote, path, depth, name, occupied);
      if l.value.node.Dir? {
        MergeAntichain(cfg, BaseDirectory(b), l.value.node, r.value.node, path + [name], depth + 1,
                       Merge(cfg, BaseDirectory(b), l.value.node, r.value.node, path + [name], depth + 1).value);
      }
    }
  }

  lemma {:induction false} NamesAntichain(cfg: Config, base: Node, local: Node, remote: Node, path: Path, depth: nat, names: seq<Bytes>, occupied: seq<Bytes>)
    requires base.Dir? && local.Dir? && remote.Dir? && NoDuplicates(names)
    requires MergeNames(cfg, base, local, remote, path, depth, names, occupied).Ok?
    ensures Antichain(MergeNames(cfg, base, local, remote, path, depth, names, occupied).value.fallbacks)
    decreases local, 1, |names|
  {
    if names != [] {
      var first := MergeName(cfg, base, local, remote, path, depth, names[0], occupied).value;
      NameAntichain(cfg, base, local, remote, path, depth, names[0], occupied);
      NameBelow(cfg, base, local, remote, path, depth, names[0], occupied);
      forall i, j | 0 <= i < j < |names[1..]|
        ensures names[1..][i] != names[1..][j]
      {
        assert names[1..][i] == names[i + 1] && names[1..][j] == names[j + 1];
      }
      NamesAntichain(cfg, base, local, remote, path, depth, names[1..], first.occupied);
      NamesBelow(cfg, base, local, remote, path, depth, names[1..], first.occupied);
      AntichainAppend(first.fallbacks, MergeNames(cfg, base, local, remote, path, depth, names[1..], first.occupied).value.fallbacks,
                      path, {names[0]}, Set(names[1..]));
    }
  }

  lemma {:induction false} MergeAntichain(cfg: Config, base: Node, local: Node, remote: Node, path: Path, depth: nat, m: Merged)
    requires base.Dir? && local.Dir? && remote.Dir? && Merge(cfg, base, local, remote, path, depth) == Ok(m)
    ensures Antichain(m.fallbacks)
    decreases local, 2, 0
  {
    var names := Ordered(AllNames(base, local, remote));
    var o := MergedFrom(cfg, base, local, remote, path, depth, m);
    OrderedNames(AllNames(base, local, remote));
    NamesAntichain(cfg, base, local, remote, path, depth, names, names);
  }
}
