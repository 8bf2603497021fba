/** When a conflict name has a next one, and that it is the one with the next number. */
module ConflictNext {
  import opened Wrappers
  import opened Bytes
  import opened Text
  import opened Paths
  import opened Utf8
  import opened ConflictNames
  import opened ConflictChain

  /** A leaf that may stand in the directory. */
  predicate Fits(rules: Rules, parent: Bytes, leaf: Bytes) {
    rules.validName(leaf) && |JoinLeaf(parent, leaf)| <= 1024
  }

  /** The directory's leaf budget minus everything but the stem. */
  function FallbackRoom(rules: Rules, f: Family): int {
    LeafBudget(f.parent) - (12 + |"-"| + |rules.opening| + |Decimal(f.ordinal + 1)| + |")"|)
  }

  /** A fallback name with the next number, its stem cut to the room. */
  function NumberedFallback(rules: Rules, f: Family, seed: Bytes): Bytes {
    seed + "-" + Truncated(f.stem, FallbackRoom(rules, f)) + rules.opening + Decimal(f.ordinal + 1) + ")"
  }

  function CopyRoom(rules: Rules, f: Family): int {
    LeafBudget(f.parent) - (|rules.opening| + |f.text| + |")"| + |" "| + |Decimal(f.ordinal + 1)| + |f.ext|)
  }

  /** A copy with the next number. */
  function NumberedCopy(rules: Rules, f: Family): Bytes {
    Truncated(f.stem, CopyRoom(rules, f)) + rules.opening + f.text + ")" + " " + Decimal(f.ordinal + 1) + f.ext
  }

  lemma CopyPrinted(rules: Rules, f: Family, stem: Bytes)
    requires f.ordinal >= 1
    ensures stem + rules.opening + f.text + ")" + " " + Decimal(f.ordinal + 1) + f.ext == PrintCopy(rules, stem, f.text, f.ext, f.ordinal + 1)
  {
    assert Suffix(f.ordinal + 1) == " " + Decimal(f.ordinal + 1);
  }

  lemma FallbackPrinted(rules: Rules, f: Family, seed: Bytes, stem: Bytes)
    ensures seed + "-" + stem + rules.opening + Decimal(f.ordinal + 1) + ")" == PrintFallback(rules, seed, stem, f.ordinal + 1)
  {
  }

  lemma FallbackLeaf(rules: Rules, f: Family, leaf: Bytes)
    requires f.fallback && |leaf| >= 12 && f.ordinal >= 1
    ensures NextLeaf(rules, f, leaf) == if FallbackRoom(rules, f) < 0 then None else Some(NumberedFallback(rules, f, leaf[..12]))
  {
    assert |FallbackMarker(rules, f.ordinal + 1)| == |rules.opening| + |Decimal(f.ordinal + 1)| + 1;
    FallbackPrinted(rules, f, leaf[..12], Truncated(f.stem, FallbackRoom(rules, f)));
  }

  lemma CopyLeaf(rules: Rules, f: Family, leaf: Bytes)
    requires !f.fallback && f.ordinal >= 1
    ensures NextLeaf(rules, f, leaf) == if CopyRoom(rules, f) < 0 then None else Some(NumberedCopy(rules, f))
  {
    var stem := Truncated(f.stem, CopyRoom(rules, f));
    SuffixLength(f.ordinal + 1);
    CopyPrinted(rules, f, stem);
    PrintedWithMarker(rules, stem, f.text, f.ext, f.ordinal + 1);
  }

  lemma SuffixLength(k: nat)
    requires k >= 2
    ensures |Suffix(k)| == 1 + |Decimal(k)|
  {
  }

  lemma WholeIsFamily(rules: Rules, path: Bytes)
    requires ParseFamily(rules, path).Some?
    ensures FamilyPrefix(Parses(rules), Split(path), |Split(path)|) == |Split(path)| > 0 && Join(Split(path)[..|Split(path)|]) == path
  {
    JoinSplit(path);
    assert Split(path)[..|Split(path)|] == Split(path);
  }

  /** The next number of a family, when it can be given. */
  lemma NextNumber(rules: Rules, current: Bytes, f: Family, name: Bytes, room: int)
    requires ParseFamily(rules, current) == Some(f)
    requires NextLeaf(rules, f, SplitLeaf(current).leaf) == if room < 0 then None else Some(name)
    ensures NextConflict(rules, current) == if f.ordinal < 9999 && room >= 0 && Fits(rules, f.parent, name) then Some(JoinLeaf(f.parent, name)) else None
  {
  }

  lemma FallbackEnds(rules: Rules, current: Bytes, seed: Bytes, source: Bytes, f: Family)
    requires ParseFamily(rules, current) == Some(f) && f.fallback
    ensures NextPromotion(rules, current, seed, source) == NextConflict(rules, current)
  {
    WholeIsFamily(rules, current);
  }

  lemma FallbackReads(rules: Rules, f: Family, seed: Bytes)
    requires RulesSound(rules) && |seed| == 12 && IsLowerHex(seed) && f.fallback && 1 <= f.ordinal < 9999 && ValidParent(rules, f.parent)
    requires Fits(rules, f.parent, NumberedFallback(rules, f, seed))
    ensures ParseFamily(rules, JoinLeaf(f.parent, NumberedFallback(rules, f, seed))) ==
              Some(Family(true, f.parent, Truncated(f.stem, FallbackRoom(rules, f)), [], [], f.ordinal + 1))
  {
    var stem := Truncated(f.stem, FallbackRoom(rules, f));
    FallbackPrinted(rules, f, seed, stem);
    PrintedFallbackReads(rules, f.parent, seed, stem, f.ordinal + 1);
  }

  /**
    A fallback name has a next one exactly when there is a number left and the numbered name fits; it
    is the same name with the next number, and reads back as that.
   */
  lemma FallbackGoesOn(rules: Rules, current: Bytes, seed: Bytes, source: Bytes, f: Family)
    requires RulesSound(rules) && ParseFamily(rules, current) == Some(f) && f.fallback
    ensures |SplitLeaf(current).leaf| >= 12 && f.parent == SplitLeaf(current).parent
    ensures var name := NumberedFallback(rules, f, SplitLeaf(current).leaf[..12]);
            NextPromotion(rules, current, seed, source) ==
              if f.ordinal < 9999 && FallbackRoom(rules, f) >= 0 && Fits(rules, f.parent, name) then Some(JoinLeaf(f.parent, name)) else None
    ensures NextPromotion(rules, current, seed, source).Some? ==>
              ParseFamily(rules, NextPromotion(rules, current, seed, source).value) ==
                Some(Family(true, f.parent, Truncated(f.stem, FallbackRoom(rules, f)), [], [], f.ordinal + 1))
  {
    var leaf := SplitLeaf(current).leaf;
    FamilyPrints(rules, current);
    FallbackLeaf(rules, f, leaf);
    NextNumber(rules, current, f, NumberedFallback(rules, f, leaf[..12]), FallbackRoom(rules, f));
    FallbackEnds(rules, current, seed, source, f);
    if NextConflict(rules, current).Some? {
      FallbackReads(rules, f, leaf[..12]);
    }
  }

  /** The leaf that a copy's successor in the fallback directory is named after. */
  function OriginalLeaf(f: Family, source: Bytes): Bytes {
    if source != [] then SplitLeaf(source).leaf else f.stem + f.ext
  }

  lemma CopyEnds(rules: Rules, current: Bytes, seed: Bytes, source: Bytes, f: Family)
    requires ParseFamily(rules, current) == Some(f) && !f.fallback && NextConflict(rules, current).None?
    ensures NextPromotion(rules, current, seed, source) ==
              if ValidId(seed) then FirstFallback(rules, FallbackRoot, OriginalLeaf(f, source), seed) else None
  {
    WholeIsFamily(rules, current);
  }

  lemma FirstInDirectory(rules: Rules, root: Bytes, leaf: Bytes, seed: Bytes)
    requires root != []
    ensures FirstFallback(rules, root, leaf, seed) ==
              var first := FallbackName(rules, leaf, root, seed, 1);
              if first.Some? then Some(root + "/" + first.value) else None
  {
  }

  /**
    A copy's next name is the same with the next number when there is one left and it fits. Otherwise
    it is the first name in the fallback directory, when the seed commit is known and that fits.
   */
  lemma CopyGoesOn(rules: Rules, current: Bytes, seed: Bytes, source: Bytes, f: Family)
    requires RulesSound(rules) && ParseFamily(rules, current) == Some(f) && !f.fallback
    ensures var name, first := NumberedCopy(rules, f), FallbackName(rules, OriginalLeaf(f, source), FallbackRoot, seed, 1);
            NextPromotion(rules, current, seed, source) ==
              if f.ordinal < 9999 && CopyRoom(rules, f) >= 0 && Fits(rules, f.parent, name) then Some(JoinLeaf(f.parent, name))
              else if ValidId(seed) && first.Some? then Some(FallbackRoot + "/" + first.value)
              else None
  {
    FamilyPrints(rules, current);
    CopyLeaf(rules, f, SplitLeaf(current).leaf);
    NextNumber(rules, current, f, NumberedCopy(rules, f), CopyRoom(rules, f));
    if NextConflict(rules, current).None? {
      CopyEnds(rules, current, seed, source, f);
      FirstInDirectory(rules, FallbackRoot, OriginalLeaf(f, source), seed);
    }
  }

  lemma CutSplits(whole: Bytes, stem: Bytes, ext: Bytes)
    requires IsSplit(whole, ext) && stem <= whole
    ensures IsSplit(stem, ext)
  {
  }

  lemma NumberedCopyReads(rules: Rules, parent: Bytes, stem: Bytes, text: Bytes, ext: Bytes, ordinal: nat, name: Bytes)
    requires RulesSound(rules) && IsText(rules, text) && IsSplit(stem, ext) && NotIn(rules.opening, ext) && 1 <= ordinal <= MaxOrdinal
    requires ValidParent(rules, parent) && Fits(rules, parent, name) && name == PrintCopy(rules, stem, text, ext, ordinal)
    ensures ParseFamily(rules, JoinLeaf(parent, name)) == Some(Family(false, parent, stem, text, ext, ordinal))
  {
    JoinIsValid(rules, parent, name);
    CopyIsNotFallback(rules, parent, stem, text, ext, ordinal);
    CopyParses(rules, parent, stem, text, ext, ordinal);
  }

  lemma CopyFacts(rules: Rules, current: Bytes, f: Family)
    requires RulesSound(rules) && ParseFamily(rules, current) == Some(f) && !f.fallback
    ensures IsText(rules, f.text) && IsSplit(f.stem, f.ext) && 1 <= f.ordinal && ValidParent(rules, f.parent)
  {
    FamilyPrints(rules, current);
  }

  lemma CopyParts(rules: Rules, f: Family) returns (stem: Bytes, name: Bytes)
    requires IsSplit(f.stem, f.ext) && 1 <= f.ordinal
    ensures stem == Truncated(f.stem, CopyRoom(rules, f)) && IsSplit(stem, f.ext)
    ensures name == NumberedCopy(rules, f) == PrintCopy(rules, stem, f.text, f.ext, f.ordinal + 1)
  {
    stem, name := Truncated(f.stem, CopyRoom(rules, f)), NumberedCopy(rules, f);
    CutSplits(f.stem, stem, f.ext);
    CopyPrinted(rules, f, stem);
  }

  /** The numbered copy reads back as the same copy with the next number, unless the extension holds the opening words. */
  lemma NextCopyReads(rules: Rules, current: Bytes, f: Family) returns (stem: Bytes, name: Bytes)
    requires RulesSound(rules) && ParseFamily(rules, current) == Some(f) && !f.fallback && NotIn(rules.opening, f.ext)
    requires f.ordinal < 9999 && CopyRoom(rules, f) >= 0 && Fits(rules, f.parent, NumberedCopy(rules, f))
    ensures stem == Truncated(f.stem, CopyRoom(rules, f)) && name == NumberedCopy(rules, f)
    ensures ParseFamily(rules, JoinLeaf(f.parent, name)) == Some(Family(false, f.parent, stem, f.text, f.ext, f.ordinal + 1))
  {
    CopyFacts(rules, current, f);
    stem, name := CopyParts(rules, f);
    NumberedCopyReads(rules, f.parent, stem, f.text, f.ext, f.ordinal + 1, name);
  }

  lemma RootReads(rules: Rules, root: Bytes, leaf: Bytes, seed: Bytes, name: Bytes) returns (stem: Bytes)
    requires RulesSound(rules) && root != [] && rules.validName(root) && FallbackName(rules, leaf, root, seed, 1) == Some(name)
    ensures stem <= leaf && |name| >= 12 && |seed| >= 12 && name[..12] == seed[..12]
    ensures ParseFamily(rules, root + "/" + name) == Some(Family(true, root, stem, [], [], 1))
  {
    SplitName(root);
    stem := GeneratedFallbackReads(rules, leaf, root, seed, 1, name);
  }

  /** The first name in the fallback directory reads back as its number one. */
  lemma FirstFallbackReads(rules: Rules, leaf: Bytes, seed: Bytes, name: Bytes) returns (stem: Bytes)
    requires RulesSound(rules) && rules.validName(FallbackRoot) && FallbackName(rules, leaf, FallbackRoot, seed, 1) == Some(name)
    ensures stem <= leaf && |name| >= 12 && |seed| >= 12 && name[..12] == seed[..12]
    ensures ParseFamily(rules, FallbackRoot + "/" + name) == Some(Family(true, FallbackRoot, stem, [], [], 1))
  {
    stem := RootReads(rules, FallbackRoot, leaf, seed, name);
  }

  /** A name without a family, and below none, has no next one. */
  lemma NoFamilyEnds(rules: Rules, current: Bytes, seed: Bytes, source: Bytes)
    requires forall k {:trigger Split(current)[..k]} :: 0 < k <= |Split(current)| ==> ParseFamily(rules, Join(Split(current)[..k])).None?
    ensures NextPromotion(rules, current, seed, source).None?
  {
    NoPrefix(rules, Split(current), |Split(current)|);
    JoinSplit(current);
    assert Split(current)[..|Split(current)|] == Split(current);
  }

  lemma {:induction false} NoPrefix(rules: Rules, parts: seq<Bytes>, n: nat)
    requires n <= |parts| && forall k {:trigger parts[..k]} :: 0 < k <= |parts| ==> ParseFamily(rules, Join(parts[..k])).None?
    ensures FamilyPrefix(Parses(rules), parts, n) == 0
  {
    if n > 0 {
      assert ParseFamily(rules, Join(parts[..n])).None?;
      NoPrefix(rules, parts, n - 1);
    }
  }

  // ---- what the first name of a chain keeps of the original ----

  /** Everything before the last dot, and the rest; a dot in front makes no extension. */
  ghost predicate Extension(leaf: Bytes, front: Bytes, ext: Bytes) {
    leaf == front + ext && if ext == [] then (forall i :: 1 <= i < |leaf| ==> leaf[i] != '.') else front != [] && ext[0] == '.' && '.' !in ext[1..]
  }

  lemma ExtensionFound(leaf: Bytes)
    ensures Extension(leaf, leaf[..ExtensionAt(leaf)], leaf[ExtensionAt(leaf)..])
  {
    var cut := ExtensionAt(leaf);
    var ext := leaf[cut..];
    if cut < |leaf| {
      AtByte(leaf, '.', cut);
      forall i | cut < i < |leaf|
        ensures leaf[i] != '.'
      {
        AtByte(leaf, '.', i);
        if leaf[i] == '.' {
          LastIndexLast(leaf, ".", i);
        }
      }
      assert forall i :: 0 <= i < |ext[1..]| ==> ext[1..][i] == leaf[cut + 1 + i];
    } else {
      forall i | 1 <= i < |leaf|
        ensures leaf[i] != '.'
      {
        AtByte(leaf, '.', i);
        if leaf[i] == '.' {
          LastIndexLast(leaf, ".", i);
        }
      }
    }
  }

  /** The number as it stands in a copy's name; the first copy has none. */
  function Number(k: nat): Bytes {
    if k == 1 then [] else " " + Decimal(k)
  }

  lemma CandidateTells(leaf: Bytes, parent: Bytes, marker: Bytes, k: nat) returns (stem: Bytes, front: Bytes, ext: Bytes)
    requires k >= 1 && CopyCandidate(leaf, parent, marker, k).Some?
    ensures Extension(leaf, front, ext) && stem <= front && CopyCandidate(leaf, parent, marker, k) == Some(stem + marker + Number(k) + ext)
  {
    var cut := ExtensionAt(leaf);
    ExtensionFound(leaf);
    front, ext := leaf[..cut], leaf[cut..];
    stem := Truncated(front, LeafBudget(parent) - (|marker| + |Suffix(k)| + |ext|));
  }

  /**
    A copy is named after the original: a beginning of its stem, the opening words with device and
    time of the seed commit, a number unless it is the first, and the whole extension.
   */
  lemma CopyNameTells(rules: Rules, seed: Seed, leaf: Bytes, parent: Bytes, occupied: seq<Bytes>)
    returns (stem: Bytes, front: Bytes, ext: Bytes, k: nat)
    requires CopyName(rules, seed, leaf, parent, occupied).Chosen?
    ensures Extension(leaf, front, ext) && stem <= front && 1 <= k <= 9999
    ensures CopyName(rules, seed, leaf, parent, occupied).name == stem + (rules.opening + (seed.device + " " + seed.time) + ")") + Number(k) + ext
  {
    var marker := CopyMarker(rules, seed.device, seed.time);
    k := CopyFromFits(rules, leaf, parent, marker, FoldAll(rules, occupied), 1);
    stem, front, ext := CandidateTells(leaf, parent, marker, k);
  }

  /** And a name in the fallback directory after the whole leaf, behind the first digits of the seed commit. */
  lemma FallbackNameTells(rules: Rules, leaf: Bytes, parent: Bytes, seedId: Bytes, k: nat, name: Bytes) returns (stem: Bytes)
    requires FallbackName(rules, leaf, parent, seedId, k) == Some(name)
    ensures |seedId| == 64 && stem <= leaf && 1 <= k <= 9999 && name == (seedId[..12] + "-") + stem + (rules.opening + Decimal(k) + ")")
    ensures |name| <= 240 && (parent != [] ==> |parent| + 1 + |name| <= 1024)
  {
    stem := FallbackIsPrinted(rules, leaf, parent, seedId, k, name);
  }
}
