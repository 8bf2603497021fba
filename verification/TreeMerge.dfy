/** What the three-way merge of directory trees computes. */
module TreeMerge {
  import opened Wrappers
  import opened Bytes
  import opened Sorting
  import opened ConflictNames
  import opened Trees
  import Paths

  const MaxDepth: nat := 256

  /** The name checks, the commit that conflict names come from, and names taken outside the tree. */
  datatype Config = Config(rules: Rules, seed: Seed, seedId: Bytes, busy: Bytes -> bool)

  /** What happens to the captured files below a path: they move along with it, or are given up. */
  datatype Effect = Move(path: Path, target: Path) | Drop(path: Path, directory: bool)

  /** A Local entry that found no place in its directory. */
  datatype Fallback = Fallback(source: Path, leaf: Bytes, slot: Slot)

  datatype MergeError = TooDeep | NameCollision | PathTooLong | NamesExhausted | BadSeed | NotAllocated | NotCanonical | OverBudget

  /** The result for some names of a directory: entries, effects, fallbacks, and the names in use so far. */
  datatype Outcome = Outcome(entries: seq<Entry>, effects: seq<Effect>, fallbacks: seq<Fallback>, occupied: seq<Bytes>)

  datatype Merged = Merged(node: Node, effects: seq<Effect>, fallbacks: seq<Fallback>)

  datatype MergedEntry = MergedEntry(slot: Option<Slot>, effects: seq<Effect>, fallbacks: seq<Fallback>)

  function Max(a: nat, b: nat): nat {
    if a > b then a else b
  }

  /** Whether Local's entry must step aside: both sides changed it and they cannot be combined. */
  predicate LocalConflictCopy(base: Option<Slot>, local: Option<Slot>, remote: Option<Slot>) {
    if local == base || remote == base || local == remote || local.None? then false
    else remote.None? || local.value.node.Dir? != remote.value.node.Dir? ||
         (local.value.node.File? && local.value.node != remote.value.node)
  }

  function ListOf(name: Bytes, slot: Option<Slot>): seq<Entry> {
    if slot.None? then [] else [Entry(name, slot.value)]
  }

  /** All the names of a set, in order. */
  ghost function SeqOf(names: set<Bytes>): (s: seq<Bytes>)
    ensures |s| == |names| && forall name :: name in s <==> name in names
    ensures forall i, j :: 0 <= i < j < |s| ==> s[i] != s[j]
  {
    if names == {} then []
    else
      var name :| name in names;
      [name] + SeqOf(names - {name})
  }

  function Itself(name: Bytes): Bytes {
    name
  }

  ghost function Ordered(names: set<Bytes>): seq<Bytes> {
    Sort(Itself, SeqOf(names))
  }

  function AllNames(base: Node, local: Node, remote: Node): set<Bytes>
    requires base.Dir? && local.Dir? && remote.Dir?
  {
    base.entries.Keys + local.entries.Keys + remote.entries.Keys
  }

  /** The modification time of a merged directory entry. */
  function MergedTime(node: Node, local: Slot, remote: Slot): nat {
    if node == local.node && node == remote.node then Max(local.mtime, remote.mtime)
    else if node == remote.node then remote.mtime
    else if node != local.node then Max(local.mtime, remote.mtime)
    else local.mtime
  }

  function BaseDirectory(base: Option<Slot>): (n: Node)
    ensures n.Dir?
  {
    if base.Some? && base.value.node.Dir? then base.value.node else EmptyDir
  }

  /** The merge of three directories at a path. */
  ghost function Merge(cfg: Config, base: Node, local: Node, remote: Node, path: Path, depth: nat): (r: Result<Merged, MergeError>)
    requires base.Dir? && local.Dir? && remote.Dir?
    ensures r.Ok? ==> r.value.node.Dir?
    decreases local, 2, 0
  {
    if depth > MaxDepth then Err(TooDeep)
    else if !FoldUnique(cfg.rules, AllNames(base, local, remote)) then Err(NameCollision)
    else
      var names := Ordered(AllNames(base, local, remote));
      var all := MergeNames(cfg, base, local, remote, path, depth, names, names);
      if all.Err? then Err(all.error)
      else
        var entries := Sort(NameOf, all.value.entries);
        if !CanonicalList(cfg.rules, entries) then Err(NotCanonical)
        else Ok(Merged(Dir(MapOf(entries)), all.value.effects, all.value.fallbacks))
  }

  ghost function MergeNames(cfg: Config, base: Node, local: Node, remote: Node, path: Path, depth: nat,
                            names: seq<Bytes>, occupied: seq<Bytes>): Result<Outcome, MergeError>
    requires base.Dir? && local.Dir? && remote.Dir?
    decreases local, 1, |names|
  {
    if names == [] then Ok(Outcome([], [], [], occupied))
    else
      var first := MergeName(cfg, base, local, remote, path, depth, names[0], occupied);
      if first.Err? then first
      else
        var rest := MergeNames(cfg, base, local, remote, path, depth, names[1..], first.value.occupied);
        if rest.Err? then rest else Ok(Append(first.value, rest.value))
  }

  function Append(first: Outcome, rest: Outcome): Outcome {
    Outcome(first.entries + rest.entries, first.effects + rest.effects, first.fallbacks + rest.fallbacks, rest.occupied)
  }

  ghost function MergeName(cfg: Config, base: Node, local: Node, remote: Node, path: Path, depth: nat,
                           name: Bytes, occupied: seq<Bytes>): Result<Outcome, MergeError>
    requires base.Dir? && local.Dir? && remote.Dir?
    decreases local, 1, 0
  {
    var child := path + [name];
    var b, l, r := Get(base, name), Get(local, name), Get(remote, name);
    if |Paths.Join(child)| > Paths.MaxPathBytes then Err(PathTooLong)
    else if LocalConflictCopy(b, l, r) then StepAside(cfg, path, name, l.value, r, occupied)
    else
      var drops := if l == b && r != b then [Drop(child, l.Some? && l.value.node.Dir?)] else [];
      var merged := if Settled(b, l, r) then Ok(MergedEntry(Settle(b, l, r), [], []))
                    else MergeBoth(cfg, b, l.value, r, child, depth);
      if merged.Err? then Err(merged.error)
      else Ok(Outcome(ListOf(name, merged.value.slot), drops + merged.value.effects, merged.value.fallbacks, occupied))
  }

  /** Local's entry gets a fresh name beside Remote's, or waits for the fallback directory. */
  function StepAside(cfg: Config, path: Path, name: Bytes, local: Slot, remote: Option<Slot>, occupied: seq<Bytes>): Result<Outcome, MergeError> {
    match CopyName(cfg.rules, cfg.seed, name, Paths.Join(path), occupied)
    case NeedsFallback => Ok(Outcome(ListOf(name, remote), [], [Fallback(path + [name], name, local)], occupied))
    case Chosen(copy) => Ok(Outcome(ListOf(name, remote) + [Entry(copy, local)],
                                    [Move(path + [name], path + [copy])], [], occupied + [copy]))
    case Exhausted => Err(NamesExhausted)
    case BadSeed => Err(MergeError.BadSeed)
  }

  /** Entries of which one side can simply be taken. */
  predicate Settled(base: Option<Slot>, local: Option<Slot>, remote: Option<Slot>) {
    local == base || remote == base || local == remote || local.None?
  }

  function Settle(base: Option<Slot>, local: Option<Slot>, remote: Option<Slot>): Option<Slot> {
    if local == base then remote
    else if remote == base then local
    else if local == remote then local
    else remote
  }

  ghost function MergeBoth(cfg: Config, base: Option<Slot>, l: Slot, remote: Option<Slot>, path: Path, depth: nat): Result<MergedEntry, MergeError>
    decreases l.node, 3, 0
  {
    if remote.None? || l.node.Dir? != remote.value.node.Dir? || (l.node.File? && l.node != remote.value.node) then Err(NotAllocated)
    else
      var r := remote.value;
      if l.node.File? then Ok(MergedEntry(Some(Slot(l.node, Max(l.mtime, r.mtime))), [], []))
      else
        var merged := Merge(cfg, BaseDirectory(base), l.node, r.node, path, depth + 1);
        if merged.Err? then Err(merged.error)
        else
          var m := merged.value;
          Ok(MergedEntry(Some(Slot(m.node, MergedTime(m.node, l, r))), m.effects, m.fallbacks))
  }

  /** What a successful merge was put together from. */
  lemma MergedFrom(cfg: Config, base: Node, local: Node, remote: Node, path: Path, depth: nat, m: Merged) returns (o: Outcome)
    requires base.Dir? && local.Dir? && remote.Dir? && Merge(cfg, base, local, remote, path, depth) == Ok(m)
    ensures var names := Ordered(AllNames(base, local, remote));
            MergeNames(cfg, base, local, remote, path, depth, names, names) == Ok(o)
    ensures FoldUnique(cfg.rules, AllNames(base, local, remote)) && CanonicalList(cfg.rules, Sort(NameOf, o.entries))
    ensures m == Merged(Dir(MapOf(Sort(NameOf, o.entries))), o.effects, o.fallbacks)
  {
    var names := Ordered(AllNames(base, local, remote));
    o := MergeNames(cfg, base, local, remote, path, depth, names, names).value;
  }

  /** The outcome of a name that both sides changed and that can be combined. */
  lemma CombinedOutcome(cfg: Config, base: Node, local: Node, remote: Node, path: Path, depth: nat, name: Bytes, occupied: seq<Bytes>)
    requires base.Dir? && local.Dir? && remote.Dir?
    requires MergeName(cfg, base, local, remote, path, depth, name, occupied).Ok?
    requires var b, l, r := Get(base, name), Get(local, name), Get(remote, name); !LocalConflictCopy(b, l, r) && !Settled(b, l, r)
    ensures var b, l, r := Get(base, name), Get(local, name), Get(remote, name);
            var both := MergeBoth(cfg, b, l.value, r, path + [name], depth);
            && both.Ok? && both.value.slot.Some?
            && MergeName(cfg, base, local, remote, path, depth, name, occupied).value ==
                 Outcome([Entry(name, both.value.slot.value)], both.value.effects, both.value.fallbacks, occupied)
  {
    var both := MergeBoth(cfg, Get(base, name), Get(local, name).value, Get(remote, name), path + [name], depth);
    assert [] + both.value.effects == both.value.effects;
  }
}
