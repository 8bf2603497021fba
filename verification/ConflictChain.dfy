/** The sequence of names that a renamed conflict file tries, one after the other. */
module ConflictChain {
  import opened Wrappers
  import opened Bytes
  import opened Text
  import opened Paths
  import opened Utf8
  import opened ConflictNames

  // ---- names in their directories ----

  predicate ValidParent(rules: Rules, parent: Bytes) {
    parent == [] || forall part :: part in Split(parent) ==> rules.validName(part)
  }

  lemma JoinIsValid(rules: Rules, parent: Bytes, leaf: Bytes)
    requires NamesSound(rules) && ValidParent(rules, parent) && rules.validName(leaf)
    requires |JoinLeaf(parent, leaf)| <= MaxPathBytes
    ensures ValidPromotionPath(rules, JoinLeaf(parent, leaf)) && SplitLeaf(JoinLeaf(parent, leaf)) == Location(parent, leaf)
  {
    SplitLeafJoin(parent, leaf);
    if parent == [] {
      SplitName(leaf);
    } else {
      SplitAppend(parent, leaf);
    }
  }

  lemma ParentIsValid(rules: Rules, path: Bytes)
    requires NamesSound(rules) && ValidPromotionPath(rules, path)
    ensures var l := SplitLeaf(path); ValidParent(rules, l.parent) && rules.validName(l.leaf) && path == JoinLeaf(l.parent, l.leaf)
  {
    FirstByte(path);
    assert Split(path)[0] in Split(path);
    SplitLeafParts(path);
    var l := SplitLeaf(path);
    if l.parent == [] {
      SplitName(l.leaf);
    } else {
      SplitAppend(l.parent, l.leaf);
      assert Split(path)[|Split(path)| - 1] == l.leaf;
      forall part | part in Split(l.parent)
        ensures rules.validName(part)
      {
        assert part in Split(path);
      }
    }
  }

  lemma FirstByte(path: Bytes)
    requires path != [] && Split(path)[0] != []
    ensures path[0] != '/'
  {
  }

  // ---- what a generated name says ----

  function CopyText(seed: Seed): Bytes {
    seed.device + " " + seed.time
  }

  lemma CopyTextIsText(rules: Rules, seed: Seed)
    requires RulesSound(rules) && IsDevice(seed.device) && rules.time(seed.time)
    ensures IsText(rules, CopyText(seed))
  {
    var text := CopyText(seed);
    forall c | c in text
      ensures c != '(' && c != ')'
    {
      assert c in seed.device || c == ' ' || c in seed.time;
    }
    OnceWithout(rules.opening, text);
  }

  lemma CandidateIsPrinted(rules: Rules, leaf: Bytes, parent: Bytes, text: Bytes, ordinal: nat)
    requires CopyCandidate(leaf, parent, rules.opening + text + ")", ordinal).Some?
    ensures var name := CopyCandidate(leaf, parent, rules.opening + text + ")", ordinal).value;
            exists limit :: name == PrintCopy(rules, Truncated(leaf[..ExtensionAt(leaf)], limit), text, leaf[ExtensionAt(leaf)..], ordinal)
  {
    var marker := rules.opening + text + ")";
    var cut := ExtensionAt(leaf);
    var limit := LeafBudget(parent) - (|marker| + |Suffix(ordinal)| + |leaf[cut..]|);
    var stem := Truncated(leaf[..cut], limit);
    assert stem + marker + Suffix(ordinal) + leaf[cut..] == PrintCopy(rules, stem, text, leaf[cut..], ordinal);
  }

  /** The stem kept in a copy's name is a prefix of the original's, without a dot when there is no extension. */
  lemma CutStemSplits(leaf: Bytes, limit: int)
    ensures IsSplit(Truncated(leaf[..ExtensionAt(leaf)], limit), leaf[ExtensionAt(leaf)..])
  {
    SplitOfName(leaf, Truncated(leaf[..ExtensionAt(leaf)], limit));
  }

  /**
    Reading a generated copy name recovers its directory, its seed, its extension and its number,
    unless the extension itself contains the opening words; and the name fits, is free and is text.
   */
  lemma GeneratedCopyReads(rules: Rules, seed: Seed, leaf: Bytes, parent: Bytes, occupied: seq<Bytes>)
    returns (number: nat, limit: int)
    requires RulesSound(rules) && ValidParent(rules, parent)
    requires CopyName(rules, seed, leaf, parent, occupied).Chosen?
    requires NotIn(rules.opening, leaf[ExtensionAt(leaf)..])
    ensures var name := CopyName(rules, seed, leaf, parent, occupied).name;
            && ParseFamily(rules, JoinLeaf(parent, name)) ==
                 Some(Family(false, parent, Truncated(leaf[..ExtensionAt(leaf)], limit), CopyText(seed),
                             leaf[ExtensionAt(leaf)..], number))
            && 1 <= number <= MaxOrdinal && |name| <= MaxLeafBytes && |JoinLeaf(parent, name)| <= MaxPathBytes
            && forall other :: other in occupied ==> rules.fold(other) != rules.fold(name)
  {
    var text := CopyText(seed);
    var marker := CopyMarker(rules, seed.device, seed.time);
    assert marker == rules.opening + text + ")";
    var taken := FoldAll(rules, occupied);
    var name := CopyName(rules, seed, leaf, parent, occupied).name;
    number := CopyFromFits(rules, leaf, parent, marker, taken, 1);
    CandidateIsPrinted(rules, leaf, parent, text, number);
    limit :| name == PrintCopy(rules, Truncated(leaf[..ExtensionAt(leaf)], limit), text, leaf[ExtensionAt(leaf)..], number);
    var stem, ext := Truncated(leaf[..ExtensionAt(leaf)], limit), leaf[ExtensionAt(leaf)..];
    CopyTextIsText(rules, seed);
    CutStemSplits(leaf, limit);
    JoinIsValid(rules, parent, name);
    CopyIsNotFallback(rules, parent, stem, text, ext, number);
    CopyParses(rules, parent, stem, text, ext, number);
    forall other | other in occupied
      ensures rules.fold(other) != rules.fold(name)
    {
      assert rules.fold(other) in taken;
    }
  }

  lemma FallbackIsPrinted(rules: Rules, leaf: Bytes, parent: Bytes, seedId: Bytes, ordinal: nat, name: Bytes) returns (stem: Bytes)
    requires FallbackName(rules, leaf, parent, seedId, ordinal) == Some(name)
    ensures stem == Truncated(leaf, LeafBudget(parent) - 13 - |FallbackMarker(rules, ordinal)|)
    ensures |seedId| == 64 && name == PrintFallback(rules, seedId[..12], stem, ordinal) && name[..12] == seedId[..12]
    ensures IsLowerHex(seedId[..12]) && 1 <= ordinal <= MaxOrdinal && rules.validName(name) && |name| <= LeafBudget(parent)
  {
    stem := Truncated(leaf, LeafBudget(parent) - 13 - |FallbackMarker(rules, ordinal)|);
  }

  /** A generated fallback name reads back as the cut leaf and its number, whatever the leaf contains. */
  lemma GeneratedFallbackReads(rules: Rules, leaf: Bytes, parent: Bytes, seedId: Bytes, ordinal: nat, name: Bytes) returns (stem: Bytes)
    requires RulesSound(rules) && ValidParent(rules, parent) && FallbackName(rules, leaf, parent, seedId, ordinal) == Some(name)
    ensures stem == Truncated(leaf, LeafBudget(parent) - 13 - |FallbackMarker(rules, ordinal)|)
    ensures ParseFamily(rules, JoinLeaf(parent, name)) == Some(Family(true, parent, stem, [], [], ordinal))
    ensures ValidId(seedId) && name[..12] == seedId[..12] && |name| <= MaxLeafBytes && |JoinLeaf(parent, name)| <= MaxPathBytes
  {
    stem := FallbackIsPrinted(rules, leaf, parent, seedId, ordinal, name);
    PrintedFallbackReads(rules, parent, seedId[..12], stem, ordinal);
  }

  lemma PrintedFallbackReads(rules: Rules, parent: Bytes, seed: Bytes, stem: Bytes, ordinal: nat)
    requires RulesSound(rules) && |seed| == 12 && IsLowerHex(seed) && 1 <= ordinal <= MaxOrdinal
    requires ValidParent(rules, parent) && rules.validName(PrintFallback(rules, seed, stem, ordinal))
    requires |JoinLeaf(parent, PrintFallback(rules, seed, stem, ordinal))| <= MaxPathBytes
    ensures ParseFamily(rules, JoinLeaf(parent, PrintFallback(rules, seed, stem, ordinal))) ==
              Some(Family(true, parent, stem, [], [], ordinal))
  {
    JoinIsValid(rules, parent, PrintFallback(rules, seed, stem, ordinal));
    FallbackParses(rules, parent, seed, stem, ordinal);
  }

  lemma CandidateForm(leaf: Bytes, parent: Bytes, marker: Bytes, ordinal: nat) returns (limit: int)
    requires CopyCandidate(leaf, parent, marker, ordinal).Some?
    ensures var cut := ExtensionAt(leaf);
            CopyCandidate(leaf, parent, marker, ordinal).value == Truncated(leaf[..cut], limit) + marker + Suffix(ordinal) + leaf[cut..]
  {
    limit := LeafBudget(parent) - (|marker| + |Suffix(ordinal)| + |leaf[ExtensionAt(leaf)..]|);
  }

  /** Generated copy names split no character. */
  lemma CandidateIsUtf8(leaf: Bytes, parent: Bytes, marker: Bytes, ordinal: nat)
    requires IsUtf8(leaf) && IsUtf8(marker) && CopyCandidate(leaf, parent, marker, ordinal).Some?
    ensures IsUtf8(CopyCandidate(leaf, parent, marker, ordinal).value)
  {
    var cut := ExtensionAt(leaf);
    if cut < |leaf| {
      AtByte(leaf, '.', cut);
    }
    CutAtBoundary(leaf, cut);
    var limit := CandidateForm(leaf, parent, marker, ordinal);
    TruncatedIsUtf8(leaf[..cut], limit);
    SuffixIsUtf8(ordinal);
    FourAreUtf8(Truncated(leaf[..cut], limit), marker, Suffix(ordinal), leaf[cut..]);
  }

  lemma SuffixIsUtf8(ordinal: nat)
    ensures IsUtf8(Suffix(ordinal))
  {
    DecimalDigits(ordinal);
    forall i | 0 <= i < |Decimal(ordinal)|
      ensures Decimal(ordinal)[i] as int < 0x80
    {
      assert Decimal(ordinal)[i] in Decimal(ordinal);
    }
    AsciiIsUtf8(Suffix(ordinal));
  }

  // ---- the next name ----

  function NextCopyLeaf(rules: Rules, f: Family, ordinal: nat): Option<Bytes> {
    var marker := rules.opening + f.text + ")";
    var fixed := |marker| + |Suffix(ordinal)| + |f.ext|;
    if LeafBudget(f.parent) < fixed then None
    else Some(Truncated(f.stem, LeafBudget(f.parent) - fixed) + marker + Suffix(ordinal) + f.ext)
  }

  function NextFallbackLeaf(rules: Rules, f: Family, seed: Bytes, ordinal: nat): Option<Bytes> {
    var fixed := 13 + |FallbackMarker(rules, ordinal)|;
    if LeafBudget(f.parent) < fixed then None
    else Some(PrintFallback(rules, seed, Truncated(f.stem, LeafBudget(f.parent) - fixed), ordinal))
  }

  /** The name with a family's next number. */
  function NextLeaf(rules: Rules, f: Family, leaf: Bytes): Option<Bytes> {
    if f.fallback then NextFallbackLeaf(rules, f, FirstTwelve(leaf), f.ordinal + 1) else NextCopyLeaf(rules, f, f.ordinal + 1)
  }

  /** The path with a family's next number, when it is a valid one. */
  function NextOf(rules: Rules, f: Family, leaf: Bytes): Option<Bytes> {
    var next := NextLeaf(rules, f, leaf);
    if next.None? || !rules.validName(next.value) || |JoinLeaf(f.parent, next.value)| > MaxPathBytes then None
    else Some(JoinLeaf(f.parent, next.value))
  }

  /** The same family's next number. */
  function NextConflict(rules: Rules, current: Bytes): Option<Bytes> {
    var parsed := ParseFamily(rules, current);
    if parsed.None? || parsed.value.ordinal >= MaxOrdinal then None else NextOf(rules, parsed.value, SplitLeaf(current).leaf)
  }

  function FirstTwelve(leaf: Bytes): Bytes {
    if |leaf| < 12 then leaf else leaf[..12]
  }

  /** The longest beginning of the path, up to `n` components, that belongs to a family. */
  function FamilyPrefix(isFamily: Bytes -> bool, parts: seq<Bytes>, n: nat): (k: nat)
    requires n <= |parts|
    ensures k <= n && (k > 0 ==> isFamily(Join(parts[..k])))
    ensures n > 0 && isFamily(Join(parts[..n])) ==> k == n
  {
    if n == 0 then 0
    else if isFamily(Join(parts[..n])) then n
    else FamilyPrefix(isFamily, parts, n - 1)
  }

  method LongestFamilyPrefix(isFamily: Bytes -> bool, path: Bytes) returns (found: nat)
    ensures found == FamilyPrefix(isFamily, Split(path), |Split(path)|)
    ensures forall k :: found < k <= |Split(path)| ==> !isFamily(Join(Split(path)[..k]))
  {
    var parts := Split(path);
    found := 0;
    var index := 0;
    while index < |parts|
      invariant 0 <= index <= |parts| && found <= index
      invariant found == FamilyPrefix(isFamily, parts, index)
      invariant forall k :: found < k <= index ==> !isFamily(Join(parts[..k]))
    {
      if isFamily(Join(parts[..index + 1])) {
        found := index + 1;
      }
      index := index + 1;
    }
  }

  function Parses(rules: Rules): Bytes -> bool {
    path => ParseFamily(rules, path).Some?
  }

  /** The seed to use: a fallback family insists on its own. */
  function SeedFor(family: Family, familyLeaf: Bytes, seed: Bytes): Option<Bytes> {
    if !family.fallback then Some(seed)
    else if seed == [] then Some(FirstTwelve(familyLeaf) + seq(52, i => '0'))
    else if FirstTwelve(familyLeaf) <= seed then Some(seed)
    else None
  }

  /** A copy inside its own directory, named after the family of a directory above it. */
  function NestedCopy(rules: Rules, parent: Bytes, leaf: Bytes, text: Bytes): Option<Bytes> {
    var candidate := CopyCandidate(leaf, parent, rules.opening + text + ")", 1);
    if candidate.Some? && ValidPromotionPath(rules, JoinLeaf(parent, candidate.value))
    then Some(JoinLeaf(parent, candidate.value)) else None
  }

  function FirstFallback(rules: Rules, root: Bytes, leaf: Bytes, seed: Bytes): Option<Bytes> {
    var candidate := FallbackName(rules, leaf, root, seed, 1);
    if candidate.None? then None else Some(JoinLeaf(root, candidate.value))
  }

  /** The next name for a renamed file: the next number, then a copy in place, then the fallback directory. */
  function NextPromotion(rules: Rules, current: Bytes, seed: Bytes, source: Bytes): Option<Bytes> {
    var next := NextConflict(rules, current);
    if next.Some? then next
    else if !ValidPromotionPath(rules, current) then None
    else
      var parts := Split(current);
      var k := FamilyPrefix(Parses(rules), parts, |parts|);
      if k == 0 then None
      else
        var familyPath := Join(parts[..k]);
        var family := ParseFamily(rules, familyPath).value;
        var nested := k < |parts|;
        var parent := SplitLeaf(current).parent;
        var leaf := if source != [] then SplitLeaf(source).leaf
                    else if !nested then family.stem + family.ext
                    else SplitLeaf(current).leaf;
        if family.fallback && !nested then None
        else
          var useSeed := SeedFor(family, SplitLeaf(familyPath).leaf, seed);
          if useSeed.None? || !ValidId(useSeed.value) then None
          else
            var copy := if !family.fallback && nested then NestedCopy(rules, parent, leaf, family.text) else None;
            if copy.Some? then copy else FirstFallback(rules, FallbackRoot, leaf, useSeed.value)
  }

  // ---- the chain grows and ends ----

  /** How far along a name is: outside every family, then a copy by its number, then a fallback by its number. */
  function Rank(rules: Rules, path: Bytes): (rank: nat) {
    match ParseFamily(rules, path)
    case None => 0
    case Some(f) => if f.fallback then MaxOrdinal + f.ordinal else f.ordinal
  }

  lemma RankBounds(rules: Rules, path: Bytes)
    requires Opening(rules.opening)
    ensures Rank(rules, path) <= 2 * MaxOrdinal
    ensures match ParseFamily(rules, path)
            case None => true
            case Some(f) => 1 <= f.ordinal <= MaxOrdinal && f.parent == SplitLeaf(path).parent
  {
    var l := SplitLeaf(path);
    if ParseFallback(rules, l.parent, l.leaf).Some? {
      FallbackPrints(rules, l.parent, l.leaf);
    } else if ParseCopy(rules, l.parent, l.leaf).Some? {
      CopyPrints(rules, l.parent, l.leaf);
    }
  }

  /** A name printed as a copy ranks at least as high as its number. */
  lemma CopyRank(rules: Rules, parent: Bytes, stem: Bytes, text: Bytes, ext: Bytes, ordinal: nat)
    requires RulesSound(rules) && IsText(rules, text) && IsSplit(stem, ext) && 1 <= ordinal <= MaxOrdinal
    requires ValidPromotionPath(rules, JoinLeaf(parent, PrintCopy(rules, stem, text, ext, ordinal)))
    requires '/' !in PrintCopy(rules, stem, text, ext, ordinal)
    ensures Rank(rules, JoinLeaf(parent, PrintCopy(rules, stem, text, ext, ordinal))) >= ordinal
  {
    var leaf := PrintCopy(rules, stem, text, ext, ordinal);
    SplitLeafJoin(parent, leaf);
    CopyParses(rules, parent, stem, text, ext, ordinal);
  }

  /** A name printed as a fallback ranks above every copy. */
  lemma FallbackRank(rules: Rules, parent: Bytes, seed: Bytes, stem: Bytes, ordinal: nat, leaf: Bytes)
    requires RulesSound(rules) && |seed| == 12 && IsLowerHex(seed) && 1 <= ordinal <= MaxOrdinal
    requires ValidParent(rules, parent) && rules.validName(leaf) && |JoinLeaf(parent, leaf)| <= MaxPathBytes
    requires leaf == PrintFallback(rules, seed, stem, ordinal)
    ensures ValidPromotionPath(rules, JoinLeaf(parent, leaf)) && Rank(rules, JoinLeaf(parent, leaf)) == MaxOrdinal + ordinal
  {
    JoinIsValid(rules, parent, leaf);
    FallbackParses(rules, parent, seed, stem, ordinal);
  }

  /** What a family says about its own name. */
  lemma FamilyPrints(rules: Rules, path: Bytes)
    requires RulesSound(rules) && ParseFamily(rules, path).Some?
    ensures var f, l := ParseFamily(rules, path).value, SplitLeaf(path);
            && f.parent == l.parent && 1 <= f.ordinal <= MaxOrdinal && ValidParent(rules, l.parent)
            && (f.fallback ==> |l.leaf| >= 12 && IsLowerHex(l.leaf[..12]))
            && (!f.fallback ==> IsText(rules, f.text) && IsSplit(f.stem, f.ext) && '/' !in f.text)
  {
    var f, l := ParseFamily(rules, path).value, SplitLeaf(path);
    ParentIsValid(rules, path);
    if ParseFallback(rules, l.parent, l.leaf).Some? {
      FallbackPrints(rules, l.parent, l.leaf);
    } else {
      CopyPrints(rules, l.parent, l.leaf);
      TextInCopy(rules, f.stem, f.text, f.ext, f.ordinal);
    }
  }

  lemma TextInCopy(rules: Rules, stem: Bytes, text: Bytes, ext: Bytes, ordinal: nat)
    requires '/' !in PrintCopy(rules, stem, text, ext, ordinal)
    ensures '/' !in text
  {
    var leaf := PrintCopy(rules, stem, text, ext, ordinal);
    var from := |stem| + |rules.opening|;
    assert leaf[from..from + |text|] == text;
    forall i | 0 <= i < |text|
      ensures text[i] != '/'
    {
      assert text[i] == leaf[from + i] && leaf[from + i] in leaf;
    }
  }

  lemma NextFallbackLeafRaises(rules: Rules, f: Family, seed: Bytes, ordinal: nat, leaf: Bytes)
    requires RulesSound(rules) && |seed| == 12 && IsLowerHex(seed) && 1 <= ordinal <= MaxOrdinal
    requires ValidParent(rules, f.parent) && NextFallbackLeaf(rules, f, seed, ordinal) == Some(leaf)
    requires rules.validName(leaf) && |JoinLeaf(f.parent, leaf)| <= MaxPathBytes
    ensures ValidPromotionPath(rules, JoinLeaf(f.parent, leaf)) && Rank(rules, JoinLeaf(f.parent, leaf)) == MaxOrdinal + ordinal
  {
    var stem := Truncated(f.stem, LeafBudget(f.parent) - (13 + |FallbackMarker(rules, ordinal)|));
    assert leaf == PrintFallback(rules, seed, stem, ordinal) by {
      LeafIs(rules, f, seed, ordinal, leaf);
    }
    FallbackRank(rules, f.parent, seed, stem, ordinal, leaf);
  }

  lemma LeafIs(rules: Rules, f: Family, seed: Bytes, ordinal: nat, leaf: Bytes)
    requires NextFallbackLeaf(rules, f, seed, ordinal) == Some(leaf)
    ensures leaf == PrintFallback(rules, seed, Truncated(f.stem, LeafBudget(f.parent) - (13 + |FallbackMarker(rules, ordinal)|)), ordinal)
  {
  }

  lemma NextCopyLeafRaises(rules: Rules, f: Family, ordinal: nat, leaf: Bytes)
    requires RulesSound(rules) && IsText(rules, f.text) && IsSplit(f.stem, f.ext) && 1 <= ordinal <= MaxOrdinal
    requires ValidParent(rules, f.parent) && NextCopyLeaf(rules, f, ordinal) == Some(leaf)
    requires rules.validName(leaf) && |JoinLeaf(f.parent, leaf)| <= MaxPathBytes
    ensures ValidPromotionPath(rules, JoinLeaf(f.parent, leaf)) && Rank(rules, JoinLeaf(f.parent, leaf)) >= ordinal
  {
    var limit := LeafBudget(f.parent) - (|rules.opening + f.text + ")"| + |Suffix(ordinal)| + |f.ext|);
    CopyLeafRank(rules, f, Truncated(f.stem, limit), ordinal);
  }

  lemma CopyLeafRank(rules: Rules, f: Family, stem: Bytes, ordinal: nat)
    requires RulesSound(rules) && IsText(rules, f.text) && IsSplit(f.stem, f.ext) && 1 <= ordinal <= MaxOrdinal
    requires ValidParent(rules, f.parent) && stem <= f.stem
    requires var leaf := stem + (rules.opening + f.text + ")") + Suffix(ordinal) + f.ext;
             rules.validName(leaf) && |JoinLeaf(f.parent, leaf)| <= MaxPathBytes
    ensures var path := JoinLeaf(f.parent, stem + (rules.opening + f.text + ")") + Suffix(ordinal) + f.ext);
            ValidPromotionPath(rules, path) && Rank(rules, path) >= ordinal
  {
    PrintedWithMarker(rules, stem, f.text, f.ext, ordinal);
    JoinIsValid(rules, f.parent, PrintCopy(rules, stem, f.text, f.ext, ordinal));
    CopyRank(rules, f.parent, stem, f.text, f.ext, ordinal);
  }

  lemma FamilyRank(rules: Rules, path: Bytes, f: Family)
    requires ParseFamily(rules, path) == Some(f)
    ensures Rank(rules, path) == if f.fallback then MaxOrdinal + f.ordinal else f.ordinal
  {
  }

  lemma NextFallbackOfRaises(rules: Rules, f: Family, leaf: Bytes)
    requires RulesSound(rules) && f.fallback && 1 <= f.ordinal < MaxOrdinal && ValidParent(rules, f.parent) && NextOf(rules, f, leaf).Some?
    requires |leaf| >= 12 && IsLowerHex(FirstTwelve(leaf))
    ensures Rank(rules, NextOf(rules, f, leaf).value) > MaxOrdinal + f.ordinal && ValidPromotionPath(rules, NextOf(rules, f, leaf).value)
  {
    var next := NextOfForm(rules, f, leaf);
    NextFallbackLeafRaises(rules, f, FirstTwelve(leaf), f.ordinal + 1, next);
  }

  lemma NextCopyOfRaises(rules: Rules, f: Family, leaf: Bytes)
    requires RulesSound(rules) && !f.fallback && 1 <= f.ordinal < MaxOrdinal && ValidParent(rules, f.parent) && NextOf(rules, f, leaf).Some?
    requires IsText(rules, f.text) && IsSplit(f.stem, f.ext)
    ensures Rank(rules, NextOf(rules, f, leaf).value) > f.ordinal && ValidPromotionPath(rules, NextOf(rules, f, leaf).value)
  {
    var next := NextOfForm(rules, f, leaf);
    NextCopyLeafRaises(rules, f, f.ordinal + 1, next);
  }

  /** The same family's next number ranks higher. */
  lemma NextConflictRaises(rules: Rules, current: Bytes)
    requires RulesSound(rules) && NextConflict(rules, current).Some?
    ensures var next := NextConflict(rules, current).value;
            Rank(rules, next) > Rank(rules, current) && ValidPromotionPath(rules, next)
  {
    var f, leaf := ParseFamily(rules, current).value, SplitLeaf(current).leaf;
    FamilyPrints(rules, current);
    FamilyRank(rules, current, f);
    if f.fallback {
      NextFallbackOfRaises(rules, f, leaf);
    } else {
      NextCopyOfRaises(rules, f, leaf);
    }
  }

  lemma NextOfForm(rules: Rules, f: Family, leaf: Bytes) returns (next: Bytes)
    requires NextOf(rules, f, leaf).Some?
    ensures NextLeaf(rules, f, leaf) == Some(next) && NextOf(rules, f, leaf) == Some(JoinLeaf(f.parent, next))
    ensures rules.validName(next) && |JoinLeaf(f.parent, next)| <= MaxPathBytes
  {
    next := NextLeaf(rules, f, leaf).value;
  }

  lemma PrintedWithMarker(rules: Rules, stem: Bytes, text: Bytes, ext: Bytes, ordinal: nat)
    ensures stem + (rules.opening + text + ")") + Suffix(ordinal) + ext == PrintCopy(rules, stem, text, ext, ordinal)
  {
  }

  lemma NestedCopyRaises(rules: Rules, parent: Bytes, leaf: Bytes, text: Bytes)
    requires RulesSound(rules) && IsText(rules, text) && '/' !in text && '/' !in leaf
    requires NestedCopy(rules, parent, leaf, text).Some?
    ensures Rank(rules, NestedCopy(rules, parent, leaf, text).value) >= 1
  {
    var name := CopyCandidate(leaf, parent, rules.opening + text + ")", 1).value;
    var cut := ExtensionAt(leaf);
    CandidateIsPrinted(rules, leaf, parent, text, 1);
    var limit :| name == PrintCopy(rules, Truncated(leaf[..cut], limit), text, leaf[cut..], 1);
    CutStemSplits(leaf, limit);
    NoSlash(rules, leaf, cut, limit, text);
    CopyRank(rules, parent, Truncated(leaf[..cut], limit), text, leaf[cut..], 1);
  }

  lemma NoSlash(rules: Rules, leaf: Bytes, cut: nat, limit: int, text: Bytes)
    requires Opening(rules.opening) && cut <= |leaf| && '/' !in text && '/' !in leaf
    ensures '/' !in PrintCopy(rules, Truncated(leaf[..cut], limit), text, leaf[cut..], 1)
  {
    assert forall c :: c in Truncated(leaf[..cut], limit) ==> c in leaf[..cut];
  }

  lemma FirstFallbackRank(rules: Rules, root: Bytes, leaf: Bytes, seed: Bytes)
    requires RulesSound(rules) && rules.validName(root) && FirstFallback(rules, root, leaf, seed).Some?
    ensures var next := FirstFallback(rules, root, leaf, seed).value;
            Rank(rules, next) == MaxOrdinal + 1 && ValidPromotionPath(rules, next)
  {
    SplitName(root);
    var name := FallbackName(rules, leaf, root, seed, 1).value;
    var stem := GeneratedFallbackReads(rules, leaf, root, seed, 1, name);
    JoinIsValid(rules, root, name);
  }

  /** Outside every family, or a copy: what the longest family prefix says about the whole path. */
  lemma PrefixRank(rules: Rules, path: Bytes)
    requires RulesSound(rules) && ValidPromotionPath(rules, path)
    ensures var parts := Split(path); var k := FamilyPrefix(Parses(rules), parts, |parts|);
            && (k < |parts| ==> Rank(rules, path) == 0)
            && (k == |parts| ==> ParseFamily(rules, path).Some? && Join(parts[..k]) == path)
  {
    JoinSplit(path);
    assert Split(path)[..|Split(path)|] == Split(path);
  }

  /** Every step of the chain ranks strictly higher and is again a valid path. */
  lemma NextRaises(rules: Rules, current: Bytes, seed: Bytes, source: Bytes)
    requires RulesSound(rules) && NextPromotion(rules, current, seed, source).Some?
    ensures var next := NextPromotion(rules, current, seed, source).value;
            Rank(rules, next) > Rank(rules, current) && ValidPromotionPath(rules, next)
  {
    if NextConflict(rules, current).Some? {
      NextConflictRaises(rules, current);
    } else {
      NextFamilyRaises(rules, current, seed, source);
    }
  }

  lemma NextFamilyRaises(rules: Rules, current: Bytes, seed: Bytes, source: Bytes)
    requires RulesSound(rules) && NextPromotion(rules, current, seed, source).Some? && NextConflict(rules, current).None?
    ensures var next := NextPromotion(rules, current, seed, source).value;
            Rank(rules, next) > Rank(rules, current) && ValidPromotionPath(rules, next)
  {
    var parts := Split(current);
    var k := FamilyPrefix(Parses(rules), parts, |parts|);
    var family := ParseFamily(rules, Join(parts[..k])).value;
    var leaf := if source != [] then SplitLeaf(source).leaf
                else if k == |parts| then family.stem + family.ext
                else SplitLeaf(current).leaf;
    var seedToUse := SeedFor(family, SplitLeaf(Join(parts[..k])).leaf, seed).value;
    PrefixRank(rules, current);
    RankBounds(rules, current);
    FamilyPrints(rules, Join(parts[..k]));
    SplitLeafNoSlash(source);
    SplitLeafNoSlash(current);
    var copy := if !family.fallback && k < |parts| then NestedCopy(rules, SplitLeaf(current).parent, leaf, family.text) else None;
    if copy.Some? {
      NestedCopyRaises(rules, SplitLeaf(current).parent, leaf, family.text);
    } else {
      FirstFallbackRank(rules, FallbackRoot, leaf, seedToUse);
    }
  }

  /** What is reached after `n` steps, if they go on that long. */
  function Nth(step: Bytes -> Option<Bytes>, start: Bytes, n: nat): Option<Bytes> {
    if n == 0 then Some(start)
    else
      var before := Nth(step, start, n - 1);
      if before.None? then None else step(before.value)
  }

  ghost predicate Raises(step: Bytes -> Option<Bytes>, rank: Bytes -> nat) {
    forall name :: step(name).Some? ==> rank(step(name).value) > rank(name)
  }

  lemma {:induction false} StepsRaise(step: Bytes -> Option<Bytes>, rank: Bytes -> nat, start: Bytes, i: nat, j: nat)
    requires Raises(step, rank) && i <= j && Nth(step, start, j).Some?
    ensures Nth(step, start, i).Some?
    ensures rank(Nth(step, start, j).value) >= rank(Nth(step, start, i).value) + (j - i)
    decreases j
  {
    if i < j {
      StepsRaise(step, rank, start, i, j - 1);
    }
  }

  function Next(rules: Rules, seed: Bytes, source: Bytes): Bytes -> Option<Bytes> {
    name => NextPromotion(rules, name, seed, source)
  }

  /** The name reached after `n` steps of the chain. */
  function NthName(rules: Rules, start: Bytes, seed: Bytes, source: Bytes, n: nat): Option<Bytes> {
    Nth(Next(rules, seed, source), start, n)
  }

  lemma ChainRaises(rules: Rules, start: Bytes, seed: Bytes, source: Bytes, i: nat, j: nat)
    requires RulesSound(rules) && i <= j && NthName(rules, start, seed, source, j).Some?
    ensures NthName(rules, start, seed, source, i).Some?
    ensures Rank(rules, NthName(rules, start, seed, source, j).value) >=
              Rank(rules, NthName(rules, start, seed, source, i).value) + (j - i)
  {
    var rank := name => Rank(rules, name);
    assert Raises(Next(rules, seed, source), rank) by {
      forall name | Next(rules, seed, source)(name).Some?
        ensures rank(Next(rules, seed, source)(name).value) > rank(name)
      {
        NextRaises(rules, name, seed, source);
      }
    }
    StepsRaise(Next(rules, seed, source), rank, start, i, j);
  }

  /** The chain never comes back to a name. */
  lemma ChainNeverRepeats(rules: Rules, start: Bytes, seed: Bytes, source: Bytes, i: nat, j: nat)
    requires RulesSound(rules) && i < j && NthName(rules, start, seed, source, j).Some?
    ensures NthName(rules, start, seed, source, i) != NthName(rules, start, seed, source, j)
  {
    ChainRaises(rules, start, seed, source, i, j);
  }

  /** It ends after at most 19998 steps, from every start. */
  lemma ChainEnds(rules: Rules, start: Bytes, seed: Bytes, source: Bytes, n: nat)
    requires RulesSound(rules) && NthName(rules, start, seed, source, n).Some?
    ensures n <= 2 * MaxOrdinal
  {
    ChainRaises(rules, start, seed, source, 0, n);
    RankBounds(rules, NthName(rules, start, seed, source, n).value);
  }

  /** Every name after the first fits: a leaf of at most 240 bytes in a path of at most 1024. */
  lemma ChainFits(rules: Rules, start: Bytes, seed: Bytes, source: Bytes, n: nat)
    requires RulesSound(rules) && n > 0 && NthName(rules, start, seed, source, n).Some?
    ensures var name := NthName(rules, start, seed, source, n).value;
            |name| <= MaxPathBytes && |SplitLeaf(name).leaf| <= MaxLeafBytes
  {
    var before := NthName(rules, start, seed, source, n - 1);
    NextRaises(rules, before.value, seed, source);
    ParentIsValid(rules, NthName(rules, start, seed, source, n).value);
  }
}
