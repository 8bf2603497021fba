/**
  A merge that takes a place in the fallback directory back. Local holds, in the directory where
  homeless entries go, a file under the very name that another homeless file is given there, and
  that file is homeless itself. The lineage then has two files at one place, and loses one of them.
 */
module RetakenCase {
  import opened Wrappers
  import opened Bytes
  import opened Text
  import opened Utf8
  import opened Sorting
  import opened ConflictNames
  import opened NameRules
  import opened Trees
  import opened TreeMerge
  import opened MergeLaws
  import opened MergeFallbacks
  import Paths

  // ---- names without room for a conflict copy ----

  /** A name with an extension of 201 bytes: with a marker before it, it is too long. */
  function Leaf(): Bytes {
    "A." + seq(200, i => 'x')
  }

  /** Any commit may give names, as long as its device, time and identity are well-formed. */
  ghost predicate CaseConfig(cfg: Config) {
    cfg.rules == PlainRules() && IsDevice(cfg.seed.device) && PlainTime(cfg.seed.time) && ValidId(cfg.seedId) && forall name :: !cfg.busy(name)
  }

  /** The name that a homeless entry is given in the fallback directory. */
  function GivenName(seedId: Bytes, leaf: Bytes): Bytes
    requires ValidId(seedId)
  {
    (seedId[..12] + "-") + Truncated(leaf, 204) + FallbackMarker(PlainRules(), 1)
  }

  function Given(seedId: Bytes): Bytes
    requires ValidId(seedId)
  {
    GivenName(seedId, Leaf())
  }

  lemma MarkerIsShort()
    ensures FallbackMarker(PlainRules(), 1) == MarkerPrefix + "1" + ")" && |FallbackMarker(PlainRules(), 1)| == 23
    ensures '/' !in FallbackMarker(PlainRules(), 1) && '.' !in FallbackMarker(PlainRules(), 1)
  {
    MarkerPrefixOpens();
    assert Decimal(1) == "1";
  }

  lemma HexIsPlain(id: Bytes)
    requires ValidId(id)
    ensures '/' !in id[..12] && '.' !in id[..12] && forall c :: c in id[..12] ==> c != 'A'
  {
    forall c | c in id[..12]
      ensures c in id
    {
    }
  }

  lemma GivenIsValid(seedId: Bytes, leaf: Bytes)
    requires ValidId(seedId) && '/' !in leaf
    ensures PlainName(GivenName(seedId, leaf)) && 36 <= |GivenName(seedId, leaf)|
  {
    MarkerIsShort();
    HexIsPlain(seedId);
    assert forall c :: c in Truncated(leaf, 204) ==> c in leaf;
  }

  lemma LeafIsPlain()
    ensures '/' !in Leaf() && |Leaf()| == 202 && Truncated(Leaf(), 204) == Leaf() && Leaf()[1] == '.' && '.' !in Leaf()[2..] && PlainName(Leaf())
  {
  }

  /** Where the extension of a name begins, when it has one more dot or none before. */
  lemma ExtensionIs(leaf: Bytes, at: nat)
    requires 0 < at < |leaf| && leaf[at] == '.' && '.' !in leaf[at + 1..]
    ensures ExtensionAt(leaf) == at
  {
    AtByte(leaf, '.', at);
    forall j | j > at
      ensures !At(leaf, ".", j)
    {
      AtByte(leaf, '.', j);
      assert j < |leaf| ==> leaf[at + 1..][j - at - 1] == leaf[j];
    }
    LastIndexIs(leaf, ".", at);
  }

  /** With an extension of more than 193 bytes, an entry finds no place beside its rival. */
  lemma Homeless(cfg: Config, leaf: Bytes, parent: Bytes, occupied: seq<Bytes>, at: nat)
    requires CaseConfig(cfg) && 0 < at < |leaf| && leaf[at] == '.' && '.' !in leaf[at + 1..] && |leaf| - at > 193
    ensures CopyName(cfg.rules, cfg.seed, leaf, parent, occupied) == NeedsFallback
  {
    ExtensionIs(leaf, at);
    MarkerPrefixOpens();
    var marker := CopyMarker(cfg.rules, cfg.seed.device, cfg.seed.time);
    assert |marker| == 47;
    assert CopyCandidate(leaf, parent, marker, 1).None?;
  }

  lemma LeafHomeless(cfg: Config, parent: Bytes, occupied: seq<Bytes>)
    requires CaseConfig(cfg)
    ensures CopyName(cfg.rules, cfg.seed, Leaf(), parent, occupied) == NeedsFallback
  {
    LeafIsPlain();
    Homeless(cfg, Leaf(), parent, occupied, 1);
  }

  lemma GivenHomeless(cfg: Config, parent: Bytes, occupied: seq<Bytes>)
    requires CaseConfig(cfg)
    ensures CopyName(cfg.rules, cfg.seed, Given(cfg.seedId), parent, occupied) == NeedsFallback
  {
    var n := Given(cfg.seedId);
    LeafIsPlain();
    MarkerIsShort();
    assert n == (cfg.seedId[..12] + "-") + Leaf() + FallbackMarker(PlainRules(), 1);
    assert n[14] == '.' && n[15..] == Leaf()[2..] + FallbackMarker(PlainRules(), 1);
    Homeless(cfg, n, parent, occupied, 14);
  }

  /** The first name that is tried is the one given. */
  lemma FirstIsGiven(cfg: Config, leaf: Bytes, taken: set<Bytes>)
    requires CaseConfig(cfg) && '/' !in leaf && GivenName(cfg.seedId, leaf) !in taken
    ensures PlaceFrom(cfg, leaf, FallbackRoot, taken, 1) == Some(GivenName(cfg.seedId, leaf))
  {
    GivenIsValid(cfg.seedId, leaf);
    MarkerIsShort();
    assert LeafBudget(FallbackRoot) == 240;
    assert FallbackName(cfg.rules, leaf, FallbackRoot, cfg.seedId, 1) == Some(GivenName(cfg.seedId, leaf));
  }

  lemma GivenTwiceDiffers(seedId: Bytes)
    requires ValidId(seedId)
    ensures GivenName(seedId, Given(seedId)) != Given(seedId)
  {
    HexIsPlain(seedId);
    var n := Given(seedId);
    GivenIsAscii(seedId);
    GivenStarts(seedId, Leaf());
    GivenStarts(seedId, n);
    assert seedId[..12][0] == seedId[0];
  }

  predicate IsAscii(s: Bytes) {
    forall c :: c in s ==> c as int < 128
  }

  lemma LeafIsAscii()
    ensures IsAscii(Leaf()) && |Leaf()| <= 204
  {
  }

  lemma MarkerIsAscii()
    ensures IsAscii(FallbackMarker(PlainRules(), 1))
  {
    PrefixIsAscii();
    assert Decimal(1) == "1";
    AsciiParts(MarkerPrefix, "1", ")");
  }

  lemma PrefixIsAscii()
    ensures IsAscii(MarkerPrefix)
  {
  }

  lemma SeedIsAscii(seedId: Bytes)
    requires ValidId(seedId)
    ensures IsAscii(seedId[..12] + "-")
  {
    forall c | c in seedId[..12]
      ensures c in seedId
    {
    }
  }

  lemma GivenIsAscii(seedId: Bytes)
    requires ValidId(seedId)
    ensures IsAscii(Given(seedId)) && IsAscii(Leaf()) && Given(seedId) != [] && Given(seedId)[0] == seedId[0]
  {
    LeafIsAscii();
    MarkerIsAscii();
    SeedIsAscii(seedId);
    AsciiParts(seedId[..12] + "-", Truncated(Leaf(), 204), FallbackMarker(PlainRules(), 1));
  }

  lemma AsciiParts(a: Bytes, b: Bytes, c: Bytes)
    requires IsAscii(a) && IsAscii(b) && IsAscii(c)
    ensures IsAscii(a + b + c)
  {
  }

  lemma GivenStarts(seedId: Bytes, leaf: Bytes)
    requires ValidId(seedId) && leaf != [] && forall c :: c in leaf ==> c as int < 128
    ensures |GivenName(seedId, leaf)| > 13 && GivenName(seedId, leaf)[13] == leaf[0]
  {
    TruncatedStarts(leaf, 204);
  }

  lemma {:induction false} TruncatedStarts(value: Bytes, limit: nat)
    requires |value| > 0 && limit > 0 && forall c :: c in value ==> c as int < 128
    ensures |Truncated(value, limit)| > 0
  {
    assert |value| > limit ==> value[limit] in value;
  }

  // ---- the trees ----

  /** A directory with one file. */
  ghost predicate OneFile(n: Node, name: Bytes, content: nat) {
    n.Dir? && n.entries.Keys == {name} && n.entries[name] == Slot(File(content), 0)
  }

  /** A homeless name at the top, and the directory of homeless entries with the name that it would be given. */
  ghost predicate Side(n: Node, given: Bytes, top: nat, inside: nat) {
    && n.Dir? && n.entries.Keys == {Leaf(), FallbackRoot} && n.entries[Leaf()] == Slot(File(top), 0)
    && OneFile(n.entries[FallbackRoot].node, given, inside) && n.entries[FallbackRoot].mtime == 0
  }

  /** Remote has removed both files. */
  ghost predicate Emptied(n: Node) {
    && n.Dir? && n.entries.Keys == {FallbackRoot} && n.entries[FallbackRoot].mtime == 0
    && n.entries[FallbackRoot].node.Dir? && n.entries[FallbackRoot].node.entries.Keys == {}
  }

  ghost predicate CaseTrees(cfg: Config, base: Node, local: Node, remote: Node) {
    CaseConfig(cfg) && Side(base, Given(cfg.seedId), 0, 1) && Side(local, Given(cfg.seedId), 2, 3) && Emptied(remote)
  }

  function SideOf(given: Bytes, top: nat, inside: nat): Node {
    Dir(map[Leaf() := Slot(File(top), 0), FallbackRoot := Slot(Dir(map[given := Slot(File(inside), 0)]), 0)])
  }

  /** Such trees there are, for every commit that gives names. */
  lemma TreesExist(cfg: Config)
    requires CaseConfig(cfg)
    ensures CaseTrees(cfg, SideOf(Given(cfg.seedId), 0, 1), SideOf(Given(cfg.seedId), 2, 3), Dir(map[FallbackRoot := Slot(EmptyDir, 0)]))
  {
    LeafIsPlain();
  }

  // ---- the merge inside the directory of homeless entries ----

  lemma OneName(name: Bytes)
    ensures Ordered({name}) == [name]
  {
    OrderedNames({name});
    assert Ordered({name})[0] in {name};
  }

  /** A name on which Local and Remote disagree, and which has no room for a copy. */
  lemma Waits(cfg: Config, base: Node, local: Node, remote: Node, path: Path, depth: nat, name: Bytes, occupied: seq<Bytes>, content: nat)
    requires base.Dir? && local.Dir? && remote.Dir? && |Paths.Join(path + [name])| <= Paths.MaxPathBytes
    requires Get(local, name) == Some(Slot(File(content), 0)) && Get(base, name).Some? && Get(base, name) != Get(local, name) && Get(remote, name).None?
    requires CopyName(cfg.rules, cfg.seed, name, Paths.Join(path), occupied) == NeedsFallback
    ensures MergeName(cfg, base, local, remote, path, depth, name, occupied) ==
              Ok(Outcome([], [], [Fallback(path + [name], name, Slot(File(content), 0))], occupied))
  {
  }

  lemma OneMerges(cfg: Config, base: Node, local: Node, remote: Node, path: Path, depth: nat, name: Bytes, o: Outcome)
    requires base.Dir? && local.Dir? && remote.Dir? && depth <= MaxDepth && AllNames(base, local, remote) == {name}
    requires MergeName(cfg, base, local, remote, path, depth, name, [name]) == Ok(o) && o.entries == []
    ensures Merge(cfg, base, local, remote, path, depth) == Ok(Merged(Dir(MapOf([])), o.effects, o.fallbacks))
  {
    OneName(name);
    assert [name][1..] == [];
    assert MergeNames(cfg, base, local, remote, path, depth, [name], [name]) == Ok(Append(o, Outcome([], [], [], o.occupied)));
    assert Append(o, Outcome([], [], [], o.occupied)) == o;
  }

  /** The request of the file inside. */
  function Inside(seedId: Bytes): Fallback
    requires ValidId(seedId)
  {
    Fallback([FallbackRoot, Given(seedId)], Given(seedId), Slot(File(3), 0))
  }

  function Outside(): Fallback {
    Fallback([Leaf()], Leaf(), Slot(File(2), 0))
  }

  lemma InnerMerge(cfg: Config, base: Node, local: Node, remote: Node, path: Path) returns (m: Merged)
    requires path == [FallbackRoot] && CaseConfig(cfg) && OneFile(base, Given(cfg.seedId), 1) && OneFile(local, Given(cfg.seedId), 3) && remote.Dir? && remote.entries.Keys == {}
    ensures m == Merged(Dir(MapOf([])), [], [Inside(cfg.seedId)]) && Merge(cfg, base, local, remote, path, 1) == Ok(m)
  {
    var n := Given(cfg.seedId);
    LeafIsPlain();
    GivenIsValid(cfg.seedId, Leaf());
    GivenHomeless(cfg, FallbackRoot, [n]);
    assert path + [n] == [FallbackRoot, n];
    assert [FallbackRoot, n][1..] == [n];
    assert n !in remote.entries.Keys;
    Waits(cfg, base, local, remote, path, 1, n, [n], 3);
    assert AllNames(base, local, remote) == {n};
    OneMerges(cfg, base, local, remote, path, 1, n, Outcome([], [], [Inside(cfg.seedId)], [n]));
    m := Merged(Dir(MapOf([])), [], [Inside(cfg.seedId)]);
  }

  // ---- the merge of the roots ----

  lemma TwoNames(a: Bytes, b: Bytes)
    requires Less(a, b)
    ensures Ordered({a, b}) == [a, b]
  {
    LessIrreflexive(a);
    OrderedNames({a, b});
    var s := Ordered({a, b});
    assert s[0] in {a, b} && s[1] in {a, b} && Less(Itself(s[0]), Itself(s[1]));
    LessAsymmetric(a, b);
  }

  lemma LessAsymmetric(a: Bytes, b: Bytes)
    requires Less(a, b)
    ensures !Less(b, a)
  {
    if Less(b, a) {
      LessTrans(a, b, a);
      LessIrreflexive(a);
    }
  }

  /** The directory of homeless entries, as it is after the roots are merged. */
  function MergedDir(mtime: nat): Entry {
    Entry(FallbackRoot, Slot(Dir(MapOf([])), mtime))
  }

  /** Directories that all three sides have are merged. */
  lemma BothMerge(cfg: Config, b: Slot, l: Slot, r: Slot, child: Path, depth: nat, m: Merged)
    requires b.node.Dir? && l.node.Dir? && r.node.Dir? && Merge(cfg, b.node, l.node, r.node, child, depth + 1) == Ok(m)
    ensures MergeBoth(cfg, Some(b), l, Some(r), child, depth) == Ok(MergedEntry(Some(Slot(m.node, MergedTime(m.node, l, r))), m.effects, m.fallbacks))
  {
    assert BaseDirectory(Some(b)) == b.node;
  }

  lemma Combines(cfg: Config, base: Node, local: Node, remote: Node, path: Path, depth: nat, name: Bytes, occupied: seq<Bytes>, e: MergedEntry, child: Path)
    requires base.Dir? && local.Dir? && remote.Dir? && child == path + [name] && |Paths.Join(child)| <= Paths.MaxPathBytes
    requires var b, l, r := Get(base, name), Get(local, name), Get(remote, name);
             l.Some? && !LocalConflictCopy(b, l, r) && !Settled(b, l, r) && MergeBoth(cfg, b, l.value, r, child, depth) == Ok(e)
    ensures MergeName(cfg, base, local, remote, path, depth, name, occupied) == Ok(Outcome(ListOf(name, e.slot), e.effects, e.fallbacks, occupied))
  {
    assert [] + e.effects == e.effects;
  }

  lemma DirMerges(cfg: Config, base: Node, local: Node, remote: Node, occupied: seq<Bytes>) returns (mtime: nat)
    requires CaseTrees(cfg, base, local, remote)
    ensures MergeName(cfg, base, local, remote, [], 0, FallbackRoot, occupied) == Ok(Outcome([MergedDir(mtime)], [], [Inside(cfg.seedId)], occupied))
  {
    InDirs(cfg, base, local, remote);
    var e := InnerBoth(cfg, base.entries[FallbackRoot], local.entries[FallbackRoot], remote.entries[FallbackRoot], [FallbackRoot]);
    mtime := e.slot.value.mtime;
    RootPath();
    Combines(cfg, base, local, remote, [], 0, FallbackRoot, occupied, e, [FallbackRoot]);
  }

  lemma RootPath()
    ensures [FallbackRoot] == [] + [FallbackRoot] && |Paths.Join([FallbackRoot])| <= Paths.MaxPathBytes
  {
  }

  lemma InnerBoth(cfg: Config, b: Slot, l: Slot, r: Slot, child: Path) returns (e: MergedEntry)
    requires CaseConfig(cfg) && OneFile(b.node, Given(cfg.seedId), 1) && OneFile(l.node, Given(cfg.seedId), 3) && r.node.Dir? && r.node.entries.Keys == {}
    requires child == [FallbackRoot]
    ensures MergeBoth(cfg, Some(b), l, Some(r), child, 0) == Ok(e)
    ensures e.slot.Some? && e.slot.value.node == Dir(MapOf([])) && e.effects == [] && e.fallbacks == [Inside(cfg.seedId)]
  {
    var m := InnerMerge(cfg, b.node, l.node, r.node, child);
    BothMerge(cfg, b, l, r, child, 0, m);
    e := MergedEntry(Some(Slot(m.node, MergedTime(m.node, l, r))), m.effects, m.fallbacks);
  }

  lemma InDirs(cfg: Config, base: Node, local: Node, remote: Node)
    requires CaseTrees(cfg, base, local, remote)
    ensures FallbackRoot in base.entries && FallbackRoot in local.entries && FallbackRoot in remote.entries
    ensures OneFile(base.entries[FallbackRoot].node, Given(cfg.seedId), 1) && OneFile(local.entries[FallbackRoot].node, Given(cfg.seedId), 3)
    ensures remote.entries[FallbackRoot].node.Dir? && remote.entries[FallbackRoot].node.entries.Keys == {}
    ensures var b, l, r := base.entries[FallbackRoot], local.entries[FallbackRoot], remote.entries[FallbackRoot];
            b.node.Dir? && l.node.Dir? && r.node.Dir? && b != l && b != r && l != r
  {
    assert FallbackRoot in base.entries.Keys && FallbackRoot in local.entries.Keys && FallbackRoot in remote.entries.Keys;
    DirsDiffer(Given(cfg.seedId), base.entries[FallbackRoot].node, local.entries[FallbackRoot].node, remote.entries[FallbackRoot].node);
  }

  lemma DirsDiffer(n: Bytes, b: Node, l: Node, r: Node)
    requires OneFile(b, n, 1) && OneFile(l, n, 3) && r.Dir? && r.entries.Keys == {}
    ensures b != l && b != r && l != r
  {
    assert n in b.entries.Keys && n in l.entries.Keys && n !in r.entries.Keys;
    assert b.entries[n] != l.entries[n];
  }

  lemma LeafMerges(cfg: Config, base: Node, local: Node, remote: Node, occupied: seq<Bytes>)
    requires CaseTrees(cfg, base, local, remote)
    ensures MergeName(cfg, base, local, remote, [], 0, Leaf(), occupied) == Ok(Outcome([], [], [Outside()], occupied))
  {
    LeafIsPlain();
    LeafHomeless(cfg, Paths.Join([]), occupied);
    assert [] + [Leaf()] == [Leaf()] && Leaf() !in remote.entries.Keys;
    assert Leaf() in base.entries.Keys && Leaf() in local.entries.Keys;
    Waits(cfg, base, local, remote, [], 0, Leaf(), occupied, 2);
  }

  lemma NamesOfCase(cfg: Config, base: Node, local: Node, remote: Node)
    requires CaseTrees(cfg, base, local, remote)
    ensures AllNames(base, local, remote) == {Leaf(), FallbackRoot} && Ordered({Leaf(), FallbackRoot}) == [Leaf(), FallbackRoot]
  {
    LeafBeforeRoot([]);
    TwoNames(Leaf(), FallbackRoot);
  }

  lemma LeafBeforeRoot(tail: Bytes)
    ensures Less(Leaf(), FallbackRoot + tail) && Less(Leaf(), FallbackRoot)
  {
    assert Leaf()[0] == 'A' && (FallbackRoot + tail)[0] == 'F';
  }

  lemma NamesMore(cfg: Config, base: Node, local: Node, remote: Node, name: Bytes, names: seq<Bytes>, occupied: seq<Bytes>, first: Outcome, rest: Outcome)
    requires base.Dir? && local.Dir? && remote.Dir? && MergeName(cfg, base, local, remote, [], 0, name, occupied) == Ok(first)
    requires MergeNames(cfg, base, local, remote, [], 0, names, first.occupied) == Ok(rest)
    ensures MergeNames(cfg, base, local, remote, [], 0, [name] + names, occupied) == Ok(Append(first, rest))
  {
    assert ([name] + names)[0] == name && ([name] + names)[1..] == names;
  }

  lemma BothNames(cfg: Config, base: Node, local: Node, remote: Node, a: Bytes, b: Bytes, occupied: seq<Bytes>, f: Fallback, g: Fallback, e: Entry)
    requires base.Dir? && local.Dir? && remote.Dir?
    requires MergeName(cfg, base, local, remote, [], 0, a, occupied) == Ok(Outcome([], [], [f], occupied))
    requires MergeName(cfg, base, local, remote, [], 0, b, occupied) == Ok(Outcome([e], [], [g], occupied))
    ensures MergeNames(cfg, base, local, remote, [], 0, [a, b], occupied) == Ok(Outcome([e], [], [f, g], occupied))
  {
    var one, two, none := Outcome([], [], [f], occupied), Outcome([e], [], [g], occupied), Outcome([], [], [], occupied);
    NamesMore(cfg, base, local, remote, b, [], occupied, two, none);
    assert [b] + [] == [b] && Append(two, none) == two && [a] + [b] == [a, b];
    NamesMore(cfg, base, local, remote, a, [b], occupied, one, two);
    assert Append(one, two) == Outcome([e], [], [f, g], occupied);
  }

  lemma OuterNames(cfg: Config, base: Node, local: Node, remote: Node) returns (mtime: nat)
    requires CaseTrees(cfg, base, local, remote)
    ensures var names := [Leaf(), FallbackRoot];
            MergeNames(cfg, base, local, remote, [], 0, names, names) == Ok(Outcome([MergedDir(mtime)], [], [Outside(), Inside(cfg.seedId)], names))
  {
    var names := [Leaf(), FallbackRoot];
    LeafMerges(cfg, base, local, remote, names);
    mtime := DirMerges(cfg, base, local, remote, names);
    BothNames(cfg, base, local, remote, Leaf(), FallbackRoot, names, Outside(), Inside(cfg.seedId), MergedDir(mtime));
  }

  lemma MergesTo(cfg: Config, base: Node, local: Node, remote: Node, names: seq<Bytes>, o: Outcome, only: Entry)
    requires base.Dir? && local.Dir? && remote.Dir? && FoldUnique(cfg.rules, AllNames(base, local, remote))
    requires Ordered(AllNames(base, local, remote)) == names && MergeNames(cfg, base, local, remote, [], 0, names, names) == Ok(o)
    requires Sort(NameOf, o.entries) == [only] && CanonicalList(cfg.rules, [only])
    ensures Merge(cfg, base, local, remote, [], 0) == Ok(Merged(Dir(MapOf([only])), o.effects, o.fallbacks))
  {
  }

  lemma OuterMerge(cfg: Config, base: Node, local: Node, remote: Node) returns (mtime: nat)
    requires CaseTrees(cfg, base, local, remote)
    ensures Merge(cfg, base, local, remote, [], 0) == Ok(Merged(Dir(MapOf([MergedDir(mtime)])), [], [Outside(), Inside(cfg.seedId)]))
  {
    NamesOfCase(cfg, base, local, remote);
    mtime := OuterNames(cfg, base, local, remote);
    var names := [Leaf(), FallbackRoot];
    RootIsPlain();
    SingleIsCanonical(cfg.rules, MergedDir(mtime));
    MergesTo(cfg, base, local, remote, names, Outcome([MergedDir(mtime)], [], [Outside(), Inside(cfg.seedId)], names), MergedDir(mtime));
  }

  lemma RootIsPlain()
    ensures PlainName(FallbackRoot)
  {
  }

  // ---- making room ----

  lemma RequestsInOrder(seedId: Bytes)
    requires ValidId(seedId)
    ensures Sort(SourceKey, [Outside(), Inside(seedId)]) == [Outside(), Inside(seedId)]
  {
    var key := SourceKey(Inside(seedId));
    assert [FallbackRoot, Given(seedId)][1..] == [Given(seedId)];
    assert key == FallbackRoot + "/" + Paths.Join([Given(seedId)]);
    assert key == FallbackRoot + ("/" + Given(seedId));
    LeafBeforeRoot("/" + Given(seedId));
    assert [Outside(), Inside(seedId)][1..] == [Inside(seedId)];
    assert Sort(SourceKey, [Inside(seedId)]) == [Inside(seedId)];
  }

  /** The places that the two requests are given. */
  function Places(seedId: Bytes, mtime: nat): Placed
    requires ValidId(seedId)
  {
    var n, m := Given(seedId), GivenName(seedId, Given(seedId));
    Placed([Entry(n, Slot(File(2), 0)), Entry(m, Slot(File(3), 0))], [Move([Leaf()], [FallbackRoot, n]), Move([FallbackRoot, n], [FallbackRoot, m])], mtime)
  }

  lemma PlacesGiven(cfg: Config, mtime: nat)
    requires CaseConfig(cfg)
    ensures PlaceAll(cfg, FallbackRoot, [Outside(), Inside(cfg.seedId)], {}, mtime) == Some(Places(cfg.seedId, mtime))
  {
    var n, m, inside := Given(cfg.seedId), GivenName(cfg.seedId, Given(cfg.seedId)), Inside(cfg.seedId);
    LeafIsPlain();
    FirstIsGiven(cfg, Leaf(), {});
    GivenIsValid(cfg.seedId, Leaf());
    GivenTwiceDiffers(cfg.seedId);
    FirstIsGiven(cfg, n, {n});
    TwoPlaces(cfg, FallbackRoot, Outside(), inside, n, m, mtime);
  }

  lemma TwoPlaces(cfg: Config, rootName: Bytes, f: Fallback, g: Fallback, n: Bytes, m: Bytes, mtime: nat)
    requires cfg.rules.fold(n) == n && f.slot.mtime == 0 && g.slot.mtime == 0
    requires PlaceFrom(cfg, f.leaf, rootName, {}, 1) == Some(n) && PlaceFrom(cfg, g.leaf, rootName, {n}, 1) == Some(m)
    ensures PlaceAll(cfg, rootName, [f, g], {}, mtime) ==
              Some(Placed([Entry(n, f.slot), Entry(m, g.slot)], [Move(f.source, [rootName, n]), Move(g.source, [rootName, m])], mtime))
  {
    assert [f, g][1..] == [g] && [g][1..] == [];
    assert {} + {cfg.rules.fold(n)} == {n} && Max(mtime, f.slot.mtime) == mtime && Max(mtime, g.slot.mtime) == mtime;
    var rest := PlaceAll(cfg, rootName, [g], {n}, mtime);
    assert PlaceAll(cfg, rootName, [], {n} + {cfg.rules.fold(m)}, mtime) == Some(Placed([], [], mtime));
    assert rest.value.entries == [Entry(m, g.slot)] && rest.value.effects == [Move(g.source, [rootName, m])];
    assert [Entry(n, f.slot)] + rest.value.entries == [Entry(n, f.slot), Entry(m, g.slot)];
    assert [Move(f.source, [rootName, n])] + rest.value.effects == [Move(f.source, [rootName, n]), Move(g.source, [rootName, m])];
  }

  lemma PlacesCanonical(cfg: Config, mtime: nat)
    requires CaseConfig(cfg)
    ensures CanonicalList(cfg.rules, Sort(NameOf, Places(cfg.seedId, mtime).entries))
  {
    var n, m := Given(cfg.seedId), GivenName(cfg.seedId, Given(cfg.seedId));
    LeafIsPlain();
    GivenIsValid(cfg.seedId, Leaf());
    GivenIsValid(cfg.seedId, n);
    GivenTwiceDiffers(cfg.seedId);
    var entries := Places(cfg.seedId, mtime).entries;
    assert Names(entries) == [n, m];
    DistinctSorted(cfg.rules, entries, [n, m]);
  }

  lemma NoEntries(n: Node)
    requires n.Dir? && n.entries.Keys == {}
    ensures EntriesOf(n) == []
  {
    OrderedNames(n.entries.Keys);
  }

  lemma OneEntry(n: Node, name: Bytes)
    requires n.Dir? && n.entries.Keys == {name}
    ensures EntriesOf(n) == [Entry(name, n.entries[name])]
  {
    OneName(name);
    assert [name][1..] == [] && Picked(n, []) == [];
    assert name in n.entries.Keys;
  }

  lemma FillsWith(cfg: Config, root: Node, requests: seq<Fallback>, rootName: Bytes, dir: Slot, placed: Placed, node: Node)
    requires root.Dir? && Existing(root, rootName) == dir && dir.node.Dir? && EntriesOf(dir.node) == [] && Folds(cfg.rules, dir.node.entries.Keys) == {}
    requires PlaceAll(cfg, rootName, requests, {}, dir.mtime) == Some(placed) && CanonicalList(cfg.rules, Sort(NameOf, placed.entries))
    requires node == Dir(root.entries[rootName := Slot(Dir(MapOf(Sort(NameOf, placed.entries))), placed.mtime)])
    requires CanonicalList(cfg.rules, Sort(NameOf, EntriesOf(node)))
    ensures FillRoot(cfg, root, requests, rootName) == Some(Final(node, placed.effects, rootName))
  {
    assert [] + placed.entries == placed.entries;
  }

  lemma SingleIsCanonical(rules: Rules, e: Entry)
    requires rules.validName(e.name)
    ensures Sort(NameOf, [e]) == [e] && CanonicalList(rules, [e])
  {
    assert [e][1..] == [];
    assert Sort(NameOf, [e]) == [e];
  }

  lemma Fills(cfg: Config, root: Node, mtime: nat) returns (node: Node)
    requires CaseConfig(cfg) && root.Dir? && root.entries.Keys == {FallbackRoot} && root.entries[FallbackRoot].mtime == mtime
    requires root.entries[FallbackRoot].node.Dir? && root.entries[FallbackRoot].node.entries.Keys == {}
    ensures FillRoot(cfg, root, [Outside(), Inside(cfg.seedId)], FallbackRoot) == Some(Final(node, Places(cfg.seedId, mtime).effects, FallbackRoot))
  {
    var dir, places := root.entries[FallbackRoot], Places(cfg.seedId, mtime);
    assert FallbackRoot in root.entries.Keys && Existing(root, FallbackRoot) == dir;
    NoEntries(dir.node);
    PlacesGiven(cfg, mtime);
    PlacesCanonical(cfg, mtime);
    node := Dir(root.entries[FallbackRoot := Slot(Dir(MapOf(Sort(NameOf, places.entries))), mtime)]);
    OneEntry(node, FallbackRoot);
    RootIsPlain();
    SingleIsCanonical(cfg.rules, Entry(FallbackRoot, node.entries[FallbackRoot]));
    FillsWith(cfg, root, [Outside(), Inside(cfg.seedId)], FallbackRoot, dir, places, node);
  }

  lemma ChoosesRoot(cfg: Config, root: Node)
    requires root.Dir? && root.entries.Keys == {FallbackRoot} && root.entries[FallbackRoot].node.Dir?
    ensures ChooseRoot(cfg.rules, root, FallbackRoot, 1) == Some(FallbackRoot)
  {
    assert FallbackRoot + Suffix(1) == FallbackRoot && FallbackRoot in root.entries.Keys;
  }

  lemma MergedRoot(mtime: nat) returns (root: Node)
    ensures root == Dir(MapOf([MergedDir(mtime)])) && root.entries.Keys == {FallbackRoot} && root.entries[FallbackRoot].mtime == mtime
    ensures root.entries[FallbackRoot].node.Dir? && root.entries[FallbackRoot].node.entries.Keys == {}
  {
    root := Dir(MapOf([MergedDir(mtime)]));
    assert [MergedDir(mtime)][..0] == [];
  }

  lemma Applies(cfg: Config, root: Node, fallbacks: seq<Fallback>, rootName: Bytes, requests: seq<Fallback>, final: Final)
    requires root.Dir? && fallbacks != [] && ValidId(cfg.seedId) && ChooseRoot(cfg.rules, root, FallbackRoot, 1) == Some(rootName)
    requires Sort(SourceKey, fallbacks) == requests && Existing(root, rootName).node.Dir? && FillRoot(cfg, root, requests, rootName) == Some(final)
    ensures ApplyFallbacks(cfg, root, fallbacks) == Some(final)
  {
  }

  /** A merge is put together from the merge of the roots and the filling of the directory. */
  lemma PutTogether(cfg: Config, base: Node, local: Node, remote: Node, m: Merged, final: Final, c: nat)
    requires base.Dir? && local.Dir? && remote.Dir? && Merge(cfg, base, local, remote, [], 0) == Ok(m) && m.fallbacks != []
    requires ApplyFallbacks(cfg, m.node, m.fallbacks) == Some(final) && TakenFrom(Sort(SourceKey, m.fallbacks), final.effects, 0, 1, [], c)
    ensures MergeTrees(cfg, base, local, remote).Some? && Retaken(cfg, base, local, remote)
  {
  }

  /**
    The merge succeeds, and the place that it gave to the file at the top is taken back when the file
    inside is placed: the first file's trace then leads to the second one.
   */
  lemma PlaceTakenBack(cfg: Config, base: Node, local: Node, remote: Node)
    requires CaseTrees(cfg, base, local, remote)
    ensures MergeTrees(cfg, base, local, remote).Some? && Retaken(cfg, base, local, remote)
  {
    var mtime := OuterMerge(cfg, base, local, remote);
    var requests := [Outside(), Inside(cfg.seedId)];
    var root := MergedRoot(mtime);
    ChoosesRoot(cfg, root);
    RequestsInOrder(cfg.seedId);
    var node := Fills(cfg, root, mtime);
    assert FallbackRoot in root.entries.Keys;
    assert TakenFrom(requests, Places(cfg.seedId, mtime).effects, 0, 1, [], 2);
    var final := Final(node, Places(cfg.seedId, mtime).effects, FallbackRoot);
    Applies(cfg, root, requests, FallbackRoot, requests, final);
    PutTogether(cfg, base, local, remote, Merged(root, [], requests), final, 2);
  }

  /** One such merge, in full. */
  lemma ItHappens() returns (cfg: Config, base: Node, local: Node, remote: Node)
    ensures CaseTrees(cfg, base, local, remote) && RulesSound(cfg.rules) && MergeTrees(cfg, base, local, remote).Some? && Retaken(cfg, base, local, remote)
  {
    cfg := Config(PlainRules(), Seed("00000000", "20240131T120000Z"), seq(64, i => '0'), name => false);
    ConfigIsCase(cfg);
    PlainRulesAreSound();
    base, local := SideOf(Given(cfg.seedId), 0, 1), SideOf(Given(cfg.seedId), 2, 3);
    remote := Dir(map[FallbackRoot := Slot(EmptyDir, 0)]);
    TreesExist(cfg);
    PlaceTakenBack(cfg, base, local, remote);
  }

  lemma ConfigIsCase(cfg: Config)
    requires cfg == Config(PlainRules(), Seed("00000000", "20240131T120000Z"), seq(64, i => '0'), name => false)
    ensures CaseConfig(cfg)
  {
  }
}
