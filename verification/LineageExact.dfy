/**
  Exactly when a merge keeps the traces of all files faithful: unless it takes away again, with one
  request for the fallback directory, a place there that it has just given to another.
 */
module LineageExact {
  import opened Wrappers
  import opened Bytes
  import opened Text
  import opened Sorting
  import opened ConflictNames
  import opened Trees
  import opened TreeMerge
  import opened MergeLaws
  import opened MergeFates
  import opened MergeTracks
  import opened MergeRequests
  import opened MergeFallbacks
  import opened Lineage

  ghost predicate AllMoves(effects: seq<Effect>) {
    forall e :: e in effects ==> e.Move?
  }

  predicate Covers(effects: seq<Effect>, j: nat, t: Path) {
    j < |effects| && effects[j].path <= t
  }

  ghost predicate CoveredFrom(effects: seq<Effect>, k: nat, t: Path) {
    exists j {:trigger Covers(effects, j, t)} :: k <= j && Covers(effects, j, t)
  }

  function After(e: Effect, t: Path): Path
    requires e.Move?
  {
    if e.path <= t then e.target + t[|e.path|..] else t
  }

  /** Following from the k-th effect on. */
  function FollowFrom(effects: seq<Effect>, k: nat, t: Path): Path
    requires AllMoves(effects) && k <= |effects|
    decreases |effects| - k
  {
    if k == |effects| then t else FollowFrom(effects, k + 1, After(effects[k], t))
  }

  lemma {:induction false} FollowIsFrom(effects: seq<Effect>, k: nat, t: Path)
    requires AllMoves(effects) && k <= |effects|
    ensures Follow(effects[k..], t) == Some(FollowFrom(effects, k, t))
    decreases |effects| - k
  {
    if k < |effects| {
      assert effects[k..][0] == effects[k] && effects[k..][1..] == effects[k + 1..] && effects[k] in effects;
      FollowIsFrom(effects, k + 1, After(effects[k], t));
    }
  }

  /** The last request that covers a target on its way decides where it ends. */
  lemma {:induction false} Lands(effects: seq<Effect>, k: nat, t: Path) returns (m: nat, via: Path)
    requires AllMoves(effects) && k < |effects| && CoveredFrom(effects, k, t)
    ensures k <= m < |effects| && effects[m].path <= via && FollowFrom(effects, k, t) == After(effects[m], via)
    ensures !CoveredFrom(effects, m + 1, After(effects[m], via))
    decreases |effects| - k
  {
    assert effects[k] in effects;
    var next := After(effects[k], t);
    if CoveredFrom(effects, k + 1, next) {
      m, via := Lands(effects, k + 1, next);
    } else {
      CoversHere(effects, k, t);
      m, via := k, t;
      LaterStays(effects, k + 1, next);
    }
  }

  lemma CoversHere(effects: seq<Effect>, k: nat, t: Path)
    requires k < |effects| && effects[k].Move? && CoveredFrom(effects, k, t) && !CoveredFrom(effects, k + 1, After(effects[k], t))
    ensures Covers(effects, k, t)
  {
    var j :| k <= j && Covers(effects, j, t);
    assert j == k || !Covers(effects, j, After(effects[k], t));
  }

  lemma {:induction false} LaterStays(effects: seq<Effect>, k: nat, t: Path)
    requires AllMoves(effects) && k <= |effects| && !CoveredFrom(effects, k, t)
    ensures FollowFrom(effects, k, t) == t
    decreases |effects| - k
  {
    if k < |effects| {
      assert effects[k] in effects && !Covers(effects, k, t);
      LaterStays(effects, k + 1, t);
    }
  }

  lemma LandsBeyond(effects: seq<Effect>, k: nat, t: Path) returns (m: nat, tail: Path)
    requires AllMoves(effects) && k < |effects| && CoveredFrom(effects, k, t)
    ensures k <= m < |effects| && FollowFrom(effects, k, t) == effects[m].target + tail
    ensures FollowFrom(effects, m + 1, effects[m].target + tail) == effects[m].target + tail
  {
    var via;
    m, via := Lands(effects, k, t);
    tail := via[|effects[m].path|..];
    LaterStays(effects, m + 1, After(effects[m], via));
  }

  /** A target that only one request covers to begin with is moved by it first. */
  lemma {:induction false} MovedFirst(effects: seq<Effect>, k: nat, i: nat, p: Path)
    requires AllMoves(effects) && k <= i < |effects| && effects[i].path <= p && forall j :: k <= j < i ==> !(effects[j].path <= p)
    ensures effects[i].Move? && FollowFrom(effects, k, p) == FollowFrom(effects, i + 1, effects[i].target + p[|effects[i].path|..])
    decreases i - k
  {
    assert effects[k] in effects;
    if k < i {
      MovedFirst(effects, k + 1, i, p);
    }
  }

  lemma OnlyEntry(root: Node, rootName: Bytes, list: seq<Entry>, inner: Slot, e: Entry, rest: Path, c: nat)
    requires root.Dir? && Makes(list, inner.node) && e in list && FileAt(Dir(root.entries[rootName := inner]), [rootName, e.name] + rest, c)
    ensures HoldsFile(e.slot.node, rest, c)
  {
    var q := [rootName, e.name] + rest;
    assert q[1..] == [e.name] + rest && q[1..][1..] == rest;
    assert FileAt(inner.node, q[1..], c);
  }

  /** What is at a place given to a request is what the request carries. */
  lemma OnlyCarried(cfg: Config, root: Node, requests: seq<Fallback>, rootName: Bytes, placed: Placed, i: nat, rest: Path, c: nat)
    requires root.Dir? && Existing(root, rootName).node.Dir? && FillRoot(cfg, root, requests, rootName).Some?
    requires var dir := Existing(root, rootName);
             PlaceAll(cfg, rootName, requests, Folds(cfg.rules, dir.node.entries.Keys), dir.mtime) == Some(placed)
    requires i < |placed.entries| && FileAt(FillRoot(cfg, root, requests, rootName).value.node, [rootName, placed.entries[i].name] + rest, c)
    ensures HoldsFile(placed.entries[i].slot.node, rest, c)
  {
    var inner := Filled(cfg, root, requests, rootName, placed);
    var list := EntriesOf(Existing(root, rootName).node) + placed.entries;
    assert list[|EntriesOf(Existing(root, rootName).node)| + i] == placed.entries[i];
    OnlyEntry(root, rootName, list, inner, placed.entries[i], rest, c);
  }

  /** The file that request i carries at `rest` is a Local file, which only the placing moves. */
  lemma CarriedFile(cfg: Config, base: Node, local: Node, remote: Node, m: Merged, f: Fallback, rest: Path, c: nat)
    requires base.Dir? && local.Dir? && remote.Dir? && Merge(cfg, base, local, remote, [], 0) == Ok(m) && f in m.fallbacks
    requires HoldsFile(f.slot.node, rest, c)
    ensures FileAt(local, f.source + rest, c) && Follow(m.effects, f.source + rest) == Some(f.source + rest)
  {
    MergeSorted(cfg, base, local, remote, [], 0, m);
    assert LocalAt(local, [], f) && f.source[0..] == f.source;
    if rest == [] {
      assert f.source + rest == f.source;
    } else {
      FindPrefix(local, f.source, rest);
    }
    forall e | e in m.effects
      ensures Clear(e, f)
    {
    }
    WaitsInPlace(m.effects, f, f.source + rest);
  }

  /** The two places whose traces go wrong: the file that was put there first, and the one that took it along. */
  lemma TakenAlong(cfg: Config, root: Node, requests: seq<Fallback>, rootName: Bytes, placed: Placed, i: nat, j: nat, rest: Path, c: nat)
    returns (m: nat, tail: Path)
    requires root.Dir? && Existing(root, rootName).node.Dir?
    requires PlacedAs(cfg, rootName, requests, Folds(cfg.rules, Existing(root, rootName).node.entries.Keys), placed)
    requires Antichain(requests) && TakenFrom(requests, placed.effects, i, j, rest, c)
    ensures m < |requests| && m != i && requests[i].source + rest != requests[m].source + tail
    ensures Follow(placed.effects, requests[i].source + rest) == Some([rootName, placed.entries[m].name] + tail)
    ensures Follow(placed.effects, requests[m].source + tail) == Some([rootName, placed.entries[m].name] + tail)
  {
    m, tail := EndTogether(requests, placed.effects, i, j, rest);
  }

  /** A later request that covers where request i puts a file ends the file where it puts its own. */
  lemma EndTogether(requests: seq<Fallback>, effects: seq<Effect>, i: nat, j: nat, rest: Path) returns (m: nat, tail: Path)
    requires AllMoves(effects) && |requests| == |effects| && i < j < |requests| && Antichain(requests)
    requires forall k :: 0 <= k < |effects| ==> effects[k].path == requests[k].source
    requires Covers(effects, j, effects[i].target + rest)
    ensures i < m < |requests| && requests[i].source + rest != requests[m].source + tail
    ensures Follow(effects, requests[i].source + rest) == Some(effects[m].target + tail)
    ensures Follow(effects, requests[m].source + tail) == Some(effects[m].target + tail)
  {
    m, tail := LandsBeyond(effects, i + 1, effects[i].target + rest);
    PlacedFirst(requests, effects, i, rest);
    PlacedFirst(requests, effects, m, tail);
    BothPrefixes(requests[i].source, requests[m].source, requests[i].source + rest);
  }

  /** Among requests that do not overlap, only its own moves a file to begin with. */
  lemma PlacedFirst(requests: seq<Fallback>, effects: seq<Effect>, i: nat, rest: Path)
    requires AllMoves(effects) && |requests| == |effects| && i < |requests| && Antichain(requests)
    requires forall k :: 0 <= k < |effects| ==> effects[k].path == requests[k].source
    ensures effects[i].Move? && Follow(effects, requests[i].source + rest) == Some(FollowFrom(effects, i + 1, effects[i].target + rest))
  {
    var p := requests[i].source + rest;
    Uncovered(requests, effects, i, rest);
    MovedFirst(effects, 0, i, p);
    assert p[|requests[i].source|..] == rest && effects[0..] == effects;
    FollowIsFrom(effects, 0, p);
  }

  lemma Uncovered(requests: seq<Fallback>, effects: seq<Effect>, i: nat, rest: Path)
    requires |requests| == |effects| && i < |requests| && Antichain(requests) && (forall k :: 0 <= k < |effects| ==> effects[k].path == requests[k].source)
    ensures forall k :: 0 <= k < i ==> !(effects[k].path <= requests[i].source + rest)
  {
    forall k | 0 <= k < i
      ensures !(effects[k].path <= requests[i].source + rest)
    {
      BothPrefixes(requests[i].source, requests[k].source, requests[i].source + rest);
    }
  }

  /** The traces of all files of a tree, each where it is. */
  ghost predicate Full(traces: Traces, root: Node) {
    Captured(traces, root) && forall p, c :: FileAt(root, p, c) ==> p in traces && traces[p].content == c
  }

  /** The file is a Local file, and placing the requests takes it to w. */
  predicate Taken(local: Node, m: Merged, effects: seq<Effect>, p: Path, c: nat, w: Path) {
    FileAt(local, p, c) && Follow(m.effects, p) == Some(p) && Follow(effects, p) == Some(w)
  }

  lemma CarriedIsTaken(cfg: Config, base: Node, local: Node, remote: Node, m: Merged, f: Fallback, effects: seq<Effect>, rest: Path, c: nat, w: Path)
    requires base.Dir? && local.Dir? && remote.Dir? && Merge(cfg, base, local, remote, [], 0) == Ok(m)
    requires f in Sort(SourceKey, m.fallbacks) && HoldsFile(f.slot.node, rest, c) && Follow(effects, f.source + rest) == Some(w)
    ensures Taken(local, m, effects, f.source + rest, c, w)
  {
    SortMembers(SourceKey, m.fallbacks, f);
    CarriedFile(cfg, base, local, remote, m, f, rest, c);
  }

  /** What the requests and their places are known to be. */
  ghost predicate Filling(cfg: Config, m: Merged, requests: seq<Fallback>, rootName: Bytes, placed: Placed) {
    m.node.Dir? && requests == Sort(SourceKey, m.fallbacks) && Existing(m.node, rootName).node.Dir? && FillRoot(cfg, m.node, requests, rootName).Some? &&
    var dir := Existing(m.node, rootName);
    && PlaceAll(cfg, rootName, requests, Folds(cfg.rules, dir.node.entries.Keys), dir.mtime) == Some(placed)
    && PlacedAs(cfg, rootName, requests, Folds(cfg.rules, dir.node.entries.Keys), placed)
  }

  /** When a place is taken back, a file ends where it is not, or where another ends too. */
  lemma RetakenFiles(cfg: Config, base: Node, local: Node, remote: Node, m: Merged, requests: seq<Fallback>, rootName: Bytes, placed: Placed,
                     i: nat, j: nat, rest: Path, c: nat)
    returns (q: Path, d: nat, w: Path)
    requires base.Dir? && local.Dir? && remote.Dir? && Merge(cfg, base, local, remote, [], 0) == Ok(m) && Filling(cfg, m, requests, rootName, placed)
    requires TakenFrom(requests, placed.effects, i, j, rest, c)
    ensures requests[i].source + rest != q && Taken(local, m, placed.effects, requests[i].source + rest, c, w)
    ensures Taken(local, m, placed.effects, q, d, w) || !FileAt(FillRoot(cfg, m.node, requests, rootName).value.node, w, c)
  {
    MergeAntichain(cfg, base, local, remote, [], 0, m);
    SameRequests(m.fallbacks);
    var k, tail := TakenAlong(cfg, m.node, requests, rootName, placed, i, j, rest, c);
    q, d, w := requests[k].source + tail, 0, [rootName, placed.entries[k].name] + tail;
    CarriedIsTaken(cfg, base, local, remote, m, requests[i], placed.effects, rest, c, w);
    if e :| HoldsFile(requests[k].slot.node, tail, e) {
      d := e;
      CarriedIsTaken(cfg, base, local, remote, m, requests[k], placed.effects, tail, d, w);
    } else if FileAt(FillRoot(cfg, m.node, requests, rootName).value.node, w, c) {
      OnlyCarried(cfg, m.node, requests, rootName, placed, k, tail, c);
    }
  }

  /** A merge that asks the fallback directory to take something, in its parts. */
  lemma Placing(cfg: Config, base: Node, local: Node, remote: Node, final: Final, m: Merged) returns (requests: seq<Fallback>, rootName: Bytes, placed: Placed)
    requires base.Dir? && local.Dir? && remote.Dir? && MergeTrees(cfg, base, local, remote) == Some(final)
    requires Merge(cfg, base, local, remote, [], 0) == Ok(m) && m.fallbacks != []
    ensures Filling(cfg, m, requests, rootName, placed) && final.rootName == rootName
    ensures final.node == FillRoot(cfg, m.node, requests, rootName).value.node && final.effects == m.effects + placed.effects
    ensures Retaken(cfg, base, local, remote) == RetakenIn(requests, placed.effects)
  {
    requests, rootName := ChosenRoot(cfg, m.node, m.fallbacks);
    placed := FillEffects(cfg, m.node, requests, rootName);
  }

  lemma RetakenBreaks(round: Round, local: Node, traces: Traces, final: Final)
    requires round.base.Dir? && local.Dir? && round.remote.Dir? && MergeTrees(round.cfg, round.base, local, round.remote) == Some(final)
    requires Retaken(round.cfg, round.base, local, round.remote) && Full(traces, local)
    ensures !Faithful(ApplyAll(traces, final.effects, round.cfg.seedId), final.node)
  {
    var cfg, m := round.cfg, Merge(round.cfg, round.base, local, round.remote, [], 0).value;
    var requests, rootName, placed := Placing(cfg, round.base, local, round.remote, final, m);
    var i: nat, j: nat, rest: Path, c: nat :| TakenFrom(requests, placed.effects, i, j, rest, c);
    var p := requests[i].source + rest;
    var q, d, w := RetakenFiles(cfg, round.base, local, round.remote, m, requests, rootName, placed, i, j, rest, c);
    EndsAt(traces, m.effects, placed.effects, final.effects, cfg.seedId, p, w);
    if Taken(local, m, placed.effects, q, d, w) {
      EndsAt(traces, m.effects, placed.effects, final.effects, cfg.seedId, q, w);
    }
  }

  lemma EndsAt(traces: Traces, first: seq<Effect>, second: seq<Effect>, all: seq<Effect>, seedId: Bytes, p: Path, w: Path)
    requires p in traces && traces[p].target == p && all == first + second && Follow(first, p) == Some(p) && Follow(second, p) == Some(w)
    ensures var after := ApplyAll(traces, all, seedId); p in after && after[p].target == w && after[p].content == traces[p].content
  {
    FollowAppend(first, second, p);
    ApplyAllFollows(traces, all, seedId, p);
  }

  /** With the traces of all files, one merge keeps them faithful exactly when it does not take a place back. */
  lemma FaithfulUnlessRetaken(round: Round, local: Node, traces: Traces, final: Final)
    requires round.base.Dir? && local.Dir? && round.remote.Dir? && MergeTrees(round.cfg, round.base, local, round.remote) == Some(final)
    requires Full(traces, local)
    ensures Faithful(ApplyAll(traces, final.effects, round.cfg.seedId), final.node) <==> !Retaken(round.cfg, round.base, local, round.remote)
  {
    if Retaken(round.cfg, round.base, local, round.remote) {
      RetakenBreaks(round, local, traces, final);
    } else {
      RoundKeepsTraces(round, local, traces);
    }
  }

  // ---- what rules it out ----

  lemma {:induction false} NamedFrom(cfg: Config, leaf: Bytes, rootName: Bytes, taken: set<Bytes>, ordinal: nat)
    requires ValidId(cfg.seedId) && PlaceFrom(cfg, leaf, rootName, taken, ordinal).Some?
    ensures cfg.seedId[..12] + "-" <= PlaceFrom(cfg, leaf, rootName, taken, ordinal).value
    decreases MaxOrdinal + 1 - ordinal
  {
    var name := FallbackName(cfg.rules, leaf, rootName, cfg.seedId, ordinal);
    if cfg.rules.fold(name.value) in taken || cfg.busy(name.value) {
      NamedFrom(cfg, leaf, rootName, taken, ordinal + 1);
    }
  }

  lemma PlaceStep(cfg: Config, rootName: Bytes, requests: seq<Fallback>, taken: set<Bytes>, mtime: nat) returns (name: Bytes, rest: seq<Entry>)
    requires requests != [] && PlaceAll(cfg, rootName, requests, taken, mtime).Some?
    ensures PlaceFrom(cfg, requests[0].leaf, rootName, taken, 1) == Some(name)
    ensures var next := PlaceAll(cfg, rootName, requests[1..], taken + {cfg.rules.fold(name)}, Max(mtime, requests[0].slot.mtime));
            next.Some? && rest == next.value.entries
    ensures PlaceAll(cfg, rootName, requests, taken, mtime).value.entries == [Entry(name, requests[0].slot)] + rest
  {
    name := PlaceFrom(cfg, requests[0].leaf, rootName, taken, 1).value;
    rest := PlaceAll(cfg, rootName, requests[1..], taken + {cfg.rules.fold(name)}, Max(mtime, requests[0].slot.mtime)).value.entries;
  }

  /** Names in the fallback directory begin with the seed. */
  lemma {:induction false} PlacedNamed(cfg: Config, rootName: Bytes, requests: seq<Fallback>, taken: set<Bytes>, mtime: nat, i: nat)
    requires ValidId(cfg.seedId) && PlaceAll(cfg, rootName, requests, taken, mtime).Some? && i < |requests|
    ensures i < |PlaceAll(cfg, rootName, requests, taken, mtime).value.entries|
    ensures cfg.seedId[..12] + "-" <= PlaceAll(cfg, rootName, requests, taken, mtime).value.entries[i].name
    decreases |requests|
  {
    var name, rest := PlaceStep(cfg, rootName, requests, taken, mtime);
    NamedFrom(cfg, requests[0].leaf, rootName, taken, 1);
    if i > 0 {
      PlacedNamed(cfg, rootName, requests[1..], taken + {cfg.rules.fold(name)}, Max(mtime, requests[0].slot.mtime), i - 1);
    }
  }

  /** A request from the top directory is for an entry that Local and Remote have in conflict. */
  lemma {:induction false} TopConflicts(cfg: Config, base: Node, local: Node, remote: Node, path: Path, depth: nat, names: seq<Bytes>, occupied: seq<Bytes>,
                                        o: Outcome, f: Fallback)
    requires base.Dir? && local.Dir? && remote.Dir? && NoDuplicates(names)
    requires MergeNames(cfg, base, local, remote, path, depth, names, occupied) == Ok(o) && f in o.fallbacks && |f.source| == |path| + 1
    ensures var name := f.source[|path|]; LocalConflictCopy(Get(base, name), Get(local, name), Get(remote, name))
    decreases |names|
  {
    if names != [] {
      var first := MergeName(cfg, base, local, remote, path, depth, names[0], occupied).value;
      var rest := MergeNames(cfg, base, local, remote, path, depth, names[1..], first.occupied).value;
      TailDiffers(names);
      if f in first.fallbacks {
        NameConflicts(cfg, base, local, remote, path, depth, names[0], occupied, first, f);
      } else {
        TopConflicts(cfg, base, local, remote, path, depth, names[1..], first.occupied, rest, f);
      }
    }
  }

  lemma NameConflicts(cfg: Config, base: Node, local: Node, remote: Node, path: Path, depth: nat, name: Bytes, occupied: seq<Bytes>, o: Outcome, f: Fallback)
    requires base.Dir? && local.Dir? && remote.Dir? && MergeName(cfg, base, local, remote, path, depth, name, occupied) == Ok(o)
    requires f in o.fallbacks && |f.source| == |path| + 1
    ensures f.source[|path|] == name && LocalConflictCopy(Get(base, name), Get(local, name), Get(remote, name))
  {
    var b, l, r := Get(base, name), Get(local, name), Get(remote, name);
    if !LocalConflictCopy(b, l, r) && !Settled(b, l, r) {
      CombinedOutcome(cfg, base, local, remote, path, depth, name, occupied);
      var m := Merge(cfg, BaseDirectory(b), l.value.node, r.value.node, path + [name], depth + 1).value;
      MergeSorted(cfg, BaseDirectory(b), l.value.node, r.value.node, path + [name], depth + 1, m);
      forall g | g in m.fallbacks
        ensures |g.source| > |path| + 1
      {
        assert LocalAt(l.value.node, path + [name], g);
      }
    }
  }

  lemma RootRequestConflicts(cfg: Config, base: Node, local: Node, remote: Node, m: Merged, f: Fallback)
    requires base.Dir? && local.Dir? && remote.Dir? && Merge(cfg, base, local, remote, [], 0) == Ok(m) && f in m.fallbacks && |f.source| == 1
    ensures LocalConflictCopy(Get(base, f.source[0]), Get(local, f.source[0]), Get(remote, f.source[0]))
  {
    var names := Ordered(AllNames(base, local, remote));
    var o := MergedFrom(cfg, base, local, remote, [], 0, m);
    OrderedNames(AllNames(base, local, remote));
    TopConflicts(cfg, base, local, remote, [], 0, names, names, o, f);
  }

  /** The fallback directory has its plain name or a numbered one. */
  lemma {:induction false} ChosenName(rules: Rules, root: Node, ordinal: nat) returns (k: nat)
    requires root.Dir? && 1 <= ordinal && ChooseRoot(rules, root, FallbackRoot, ordinal).Some?
    ensures 1 <= k <= MaxOrdinal && ChooseRoot(rules, root, FallbackRoot, ordinal).value == FallbackRoot + Suffix(k)
    decreases MaxOrdinal + 1 - ordinal
  {
    if ChooseRoot(rules, root, FallbackRoot, ordinal).value == FallbackRoot + Suffix(ordinal) {
      k := ordinal;
    } else {
      k := ChosenName(rules, root, ordinal + 1);
    }
  }

  /**
    What can be seen before the merge: no entry that may serve as the fallback directory is itself in
    conflict, and in none of them has Local anything named after the seed.
   */
  ghost predicate SeedIsNew(seedId: Bytes, base: Node, local: Node, remote: Node)
    requires ValidId(seedId)
  {
    forall k {:trigger Suffix(k)} :: 1 <= k <= MaxOrdinal ==>
      var rootName := FallbackRoot + Suffix(k);
      && !LocalConflictCopy(Get(base, rootName), Get(local, rootName), Get(remote, rootName))
      && forall name :: seedId[..12] + "-" <= name ==> Find(local, [rootName, name]).None?
  }

  /** Then no place is taken back. */
  lemma NewSeedIsSafe(cfg: Config, base: Node, local: Node, remote: Node)
    requires base.Dir? && local.Dir? && remote.Dir? && MergeTrees(cfg, base, local, remote).Some? && ValidId(cfg.seedId)
    requires SeedIsNew(cfg.seedId, base, local, remote)
    ensures !Retaken(cfg, base, local, remote)
  {
    var m := Merge(cfg, base, local, remote, [], 0).value;
    if m.fallbacks != [] {
      var requests, rootName, placed := Placing(cfg, base, local, remote, MergeTrees(cfg, base, local, remote).value, m);
      var k := ChosenName(cfg.rules, m.node, 1);
      var c, r := ChosenRoot(cfg, m.node, m.fallbacks);
      forall f | f in m.fallbacks
        ensures f.source != [rootName]
      {
        if f.source == [rootName] {
          RootRequestConflicts(cfg, base, local, remote, m, f);
        }
      }
      forall i: nat, j: nat, rest: Path, c: nat
        ensures !TakenFrom(requests, placed.effects, i, j, rest, c)
      {
        if i < j < |requests| {
          NotTaken(cfg, base, local, remote, m, requests, rootName, placed, i, j, rest, c);
        }
      }
    }
  }

  lemma NotTaken(cfg: Config, base: Node, local: Node, remote: Node, m: Merged, requests: seq<Fallback>, rootName: Bytes, placed: Placed,
                 i: nat, j: nat, rest: Path, c: nat)
    requires base.Dir? && local.Dir? && remote.Dir? && Merge(cfg, base, local, remote, [], 0) == Ok(m) && Filling(cfg, m, requests, rootName, placed)
    requires i < j < |requests| && ValidId(cfg.seedId) && forall f :: f in m.fallbacks ==> f.source != [rootName]
    requires forall name :: cfg.seedId[..12] + "-" <= name ==> Find(local, [rootName, name]).None?
    ensures !TakenFrom(requests, placed.effects, i, j, rest, c)
  {
    var dir := Existing(m.node, rootName);
    PlacedNamed(cfg, rootName, requests, Folds(cfg.rules, dir.node.entries.Keys), dir.mtime, i);
    assert requests[j] in requests;
    SortMembers(SourceKey, m.fallbacks, requests[j]);
    NotInside(cfg, base, local, remote, m, requests[j], [rootName, placed.entries[i].name], rest);
  }

  lemma NotInside(cfg: Config, base: Node, local: Node, remote: Node, m: Merged, f: Fallback, place: Path, rest: Path)
    requires base.Dir? && local.Dir? && remote.Dir? && Merge(cfg, base, local, remote, [], 0) == Ok(m) && f in m.fallbacks
    requires |place| == 2 && f.source != [place[0]] && Find(local, place).None?
    ensures !(f.source <= place + rest)
  {
    MergeSorted(cfg, base, local, remote, [], 0, m);
    assert LocalAt(local, [], f);
    NotBelowPlace(local, f, place, rest);
  }

  lemma NotBelowPlace(local: Node, f: Fallback, place: Path, rest: Path)
    requires LocalAt(local, [], f) && |place| == 2 && f.source != [place[0]] && Find(local, place).None?
    ensures !(f.source <= place + rest)
  {
    var t := place + rest;
    assert [t[0], t[1]] == place;
    if f.source <= t {
      SecondPart(local, f, t);
    }
  }

  lemma SecondPart(local: Node, f: Fallback, t: Path)
    requires LocalAt(local, [], f) && |t| >= 2 && f.source <= t
    ensures f.source == [t[0]] || Find(local, [t[0], t[1]]).Some?
  {
    assert f.source[0..] == f.source && f.source[0] == t[0];
    if |f.source| >= 2 {
      assert f.source[1] == t[1];
      if |f.source| == 2 {
        assert f.source == [t[0], t[1]];
      } else {
        assert f.source == [t[0], t[1]] + f.source[2..];
        FindPrefix(local, [t[0], t[1]], f.source[2..]);
      }
    } else {
      assert f.source == [t[0]];
    }
  }
}
