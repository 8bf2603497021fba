/** Names of conflict copies: printing them, reading them back, and the chain of names tried in turn. */
module ConflictNames {
  import opened Wrappers
  import opened Bytes
  import opened Text
  import opened Paths
  import opened Utf8

  const MarkerPrefix: Bytes := " (Filecloud conflict "
  const FallbackRoot: Bytes := "Filecloud Conflicts"
  const MaxLeafBytes: nat := 240

  /**
    The words that open a marker, and the checks this module does not look into: valid names,
    case folding, the fields of a text between white space, and timestamps.
   */
  datatype Rules = Rules(opening: Bytes, validName: Bytes -> bool, fold: Bytes -> Bytes,
                         fields: Bytes -> seq<Bytes>, time: Bytes -> bool)

  predicate IsDevice(device: Bytes) {
    |device| == 8 && IsLowerHex(device)
  }

  /** What matters about the opening words. */
  ghost predicate Opening(words: Bytes) {
    && |words| == 21 && words[0] == ' ' && words[1] == '(' && words[12] == 'c' && words[20] == ' '
    && ')' !in words && '.' !in words && '/' !in words && forall k :: 1 <= k < 20 && k != 11 ==> words[k] != ' '
  }

  lemma MarkerPrefixOpens()
    ensures Opening(MarkerPrefix)
  {
  }

  ghost predicate NamesSound(rules: Rules) {
    && (forall name :: rules.validName(name) ==> name != [] && |name| <= MaxLeafBytes && '/' !in name)
    && rules.validName(FallbackRoot)
  }

  ghost predicate TimesSound(rules: Rules) {
    forall time :: rules.time(time) ==> |time| == 16 && forall c :: c in time ==> IsDigit(c) || c == 'T' || c == 'Z'
  }

  /** A device and a time come apart again; two fields are never all digits; fields leave out only white space. */
  ghost predicate FieldsSound(rules: Rules) {
    && (forall device: Bytes, time: Bytes :: IsDevice(device) && rules.time(time) ==>
          rules.fields(device + " " + time) == [device, time])
    && (forall text :: |rules.fields(text)| == 2 ==> !AllDigits(text))
    && (forall text :: |rules.fields(text)| == 2 && '.' !in rules.fields(text)[0] && '.' !in rules.fields(text)[1] ==>
          '.' !in text)
  }

  /** What the checks are known to do. */
  ghost predicate RulesSound(rules: Rules) {
    Opening(rules.opening) && NamesSound(rules) && TimesSound(rules) && FieldsSound(rules)
  }

  predicate ValidPromotionPath(rules: Rules, path: Bytes) {
    path != [] && |path| <= MaxPathBytes && forall part :: part in Split(path) ==> rules.validName(part)
  }

  function LeafBudget(parent: Bytes): int {
    var available := if parent == [] then MaxPathBytes else MaxPathBytes - (|parent| + 1);
    if available < MaxLeafBytes then available else MaxLeafBytes
  }

  // ---- printing ----

  /** Where the extension begins: at the last dot, unless that is the first byte. */
  function ExtensionAt(leaf: Bytes): (i: nat)
    ensures i <= |leaf|
  {
    var dot := LastIndex(leaf, ".");
    if dot > 0 then dot else |leaf|
  }

  function CopyMarker(rules: Rules, device: Bytes, time: Bytes): Bytes {
    rules.opening + (device + " " + time) + ")"
  }

  function Suffix(ordinal: nat): Bytes {
    if ordinal <= 1 then [] else " " + Decimal(ordinal)
  }

  function FallbackMarker(rules: Rules, ordinal: nat): Bytes {
    rules.opening + Decimal(ordinal) + ")"
  }

  /** The commit that names come from: its author's device and its time. */
  datatype Seed = Seed(device: Bytes, time: Bytes)

  datatype NameChoice = Chosen(name: Bytes) | NeedsFallback | Exhausted | BadSeed

  /** The candidate with a given number, when it fits. */
  function CopyCandidate(leaf: Bytes, parent: Bytes, marker: Bytes, ordinal: nat): Option<Bytes> {
    var cut := ExtensionAt(leaf);
    var fixed := |marker| + |Suffix(ordinal)| + |leaf[cut..]|;
    if LeafBudget(parent) < fixed then None
    else Some(Truncated(leaf[..cut], LeafBudget(parent) - fixed) + marker + Suffix(ordinal) + leaf[cut..])
  }

  function CopyFrom(rules: Rules, leaf: Bytes, parent: Bytes, marker: Bytes, taken: set<Bytes>, ordinal: nat): NameChoice
    decreases MaxOrdinal + 1 - ordinal
  {
    if ordinal > MaxOrdinal then Exhausted
    else
      var candidate := CopyCandidate(leaf, parent, marker, ordinal);
      if candidate.None? || !rules.validName(candidate.value) then NeedsFallback
      else if rules.fold(candidate.value) !in taken then Chosen(candidate.value)
      else CopyFrom(rules, leaf, parent, marker, taken, ordinal + 1)
  }

  function FoldAll(rules: Rules, names: seq<Bytes>): set<Bytes> {
    set name | name in names :: rules.fold(name)
  }

  function CopyName(rules: Rules, seed: Seed, leaf: Bytes, parent: Bytes, occupied: seq<Bytes>): NameChoice {
    if !IsDevice(seed.device) || !rules.time(seed.time) then BadSeed
    else CopyFrom(rules, leaf, parent, CopyMarker(rules, seed.device, seed.time), FoldAll(rules, occupied), 1)
  }

  method ConflictCopyName(rules: Rules, seed: Seed, leaf: Bytes, parent: Bytes, occupied: seq<Bytes>) returns (r: NameChoice)
    ensures r == CopyName(rules, seed, leaf, parent, occupied)
  {
    if !IsDevice(seed.device) || !rules.time(seed.time) {
      return BadSeed;
    }
    var marker := CopyMarker(rules, seed.device, seed.time);
    var folded: set<Bytes> := {};
    var i := 0;
    while i < |occupied|
      invariant 0 <= i <= |occupied|
      invariant folded == FoldAll(rules, occupied[..i])
    {
      FoldMore(rules, occupied, i);
      folded := folded + {rules.fold(occupied[i])};
      i := i + 1;
    }
    assert occupied[..|occupied|] == occupied;
    var number := 1;
    while number <= MaxOrdinal
      invariant 1 <= number <= MaxOrdinal + 1
      invariant CopyFrom(rules, leaf, parent, marker, folded, number) == CopyFrom(rules, leaf, parent, marker, folded, 1)
    {
      var candidate := CopyCandidate(leaf, parent, marker, number);
      if candidate.None? || !rules.validName(candidate.value) {
        return NeedsFallback;
      }
      if rules.fold(candidate.value) !in folded {
        return Chosen(candidate.value);
      }
      number := number + 1;
    }
    return Exhausted;
  }

  lemma FoldMore(rules: Rules, names: seq<Bytes>, i: nat)
    requires i < |names|
    ensures FoldAll(rules, names[..i + 1]) == FoldAll(rules, names[..i]) + {rules.fold(names[i])}
  {
    assert names[..i + 1] == names[..i] + [names[i]];
  }

  /** A copy's name is free under case folding, valid, fits its directory, and splits no character. */
  lemma {:induction false} CopyFromFits(rules: Rules, leaf: Bytes, parent: Bytes, marker: Bytes, taken: set<Bytes>, ordinal: nat)
    returns (number: nat)
    requires CopyFrom(rules, leaf, parent, marker, taken, ordinal).Chosen?
    ensures var name := CopyFrom(rules, leaf, parent, marker, taken, ordinal).name;
            && rules.validName(name) && rules.fold(name) !in taken && |name| <= LeafBudget(parent)
            && ordinal <= number <= MaxOrdinal && CopyCandidate(leaf, parent, marker, number) == Some(name)
    decreases MaxOrdinal + 1 - ordinal
  {
    var candidate := CopyCandidate(leaf, parent, marker, ordinal);
    if rules.fold(candidate.value) !in taken {
      number := ordinal;
    } else {
      number := CopyFromFits(rules, leaf, parent, marker, taken, ordinal + 1);
    }
  }

  /** A numbered name in the fallback directory, from the first twelve digits of the seed commit. */
  function FallbackName(rules: Rules, leaf: Bytes, parent: Bytes, seedId: Bytes, ordinal: nat): Option<Bytes> {
    if !ValidId(seedId) || ordinal < 1 || ordinal > MaxOrdinal then None
    else
      var fixed := 13 + |FallbackMarker(rules, ordinal)|;
      if LeafBudget(parent) < fixed then None
      else
        var candidate := (seedId[..12] + "-") + Truncated(leaf, LeafBudget(parent) - fixed) + FallbackMarker(rules, ordinal);
        if rules.validName(candidate) then Some(candidate) else None
  }

  // ---- reading back ----

  /**
    What a name says: its stem, the text between the opening words and the closing bracket
    (copies only), its extension (copies only) and its number.
   */
  datatype Family = Family(fallback: bool, parent: Bytes, stem: Bytes, text: Bytes, ext: Bytes, ordinal: nat)

  function ParseFallback(rules: Rules, parent: Bytes, leaf: Bytes): Option<Family> {
    var at := LastIndex(leaf, rules.opening);
    var from := at + |rules.opening|;
    if at >= 13 && from < |leaf| && leaf[|leaf| - 1] == ')' then
      var number := ParseOrdinal(leaf[from..|leaf| - 1], 1);
      if IsLowerHex(leaf[..12]) && leaf[12] == '-' && number.Some?
      then Some(Family(true, parent, leaf[13..at], [], [], number.value)) else None
    else None
  }

  function ParseSuffix(suffix: Bytes): Option<nat> {
    if suffix == [] then Some(1)
    else if suffix[0] == ' ' then ParseOrdinal(suffix[1..], 2)
    else None
  }

  predicate ValidText(rules: Rules, text: Bytes) {
    var parts := rules.fields(text);
    |parts| == 2 && IsDevice(parts[0]) && rules.time(parts[1])
  }

  /** Reads what follows the opening words as `text ) suffix`. */
  function ParseRest(rules: Rules, parent: Bytes, stem: Bytes, rest: Bytes, ext: Bytes): Option<Family> {
    var end := IndexByte(rest, ')');
    if end < 0 || !ValidText(rules, rest[..end]) then None
    else
      var ordinal := ParseSuffix(rest[end + 1..]);
      if ordinal.None? then None else Some(Family(false, parent, stem, rest[..end], ext, ordinal.value))
  }

  /** Reads a name without its extension, from the last opening words on. */
  function ParseStem(rules: Rules, parent: Bytes, stem: Bytes, ext: Bytes): Option<Family> {
    var at := LastIndex(stem, rules.opening);
    if at < 0 then None else ParseRest(rules, parent, stem[..at], stem[at + |rules.opening|..], ext)
  }

  function ParseCopy(rules: Rules, parent: Bytes, leaf: Bytes): Option<Family> {
    ParseStem(rules, parent, leaf[..ExtensionAt(leaf)], leaf[ExtensionAt(leaf)..])
  }

  function ParseFamily(rules: Rules, path: Bytes): Option<Family> {
    if !ValidPromotionPath(rules, path) then None
    else
      var l := SplitLeaf(path);
      var fallback := ParseFallback(rules, l.parent, l.leaf);
      if fallback.Some? then fallback else ParseCopy(rules, l.parent, l.leaf)
  }

  // ---- where the opening words stand ----

  ghost predicate NotIn(words: Bytes, s: Bytes) {
    forall j: nat :: !At(s, words, j)
  }

  /** In `words + text` they stand at the beginning only. */
  ghost predicate Once(words: Bytes, text: Bytes) {
    forall j: nat :: j >= 1 ==> !At(words + text, words, j)
  }

  lemma Mismatch(words: Bytes, s: Bytes, j: nat, o: nat)
    requires o < |words| && (j + o < |s| ==> s[j + o] != words[o])
    ensures !At(s, words, j)
  {
  }

  /** They can overlap themselves only at their last space, before a bracket. */
  lemma NoOverlap(words: Bytes, text: Bytes, j: nat)
    requires Opening(words) && 1 <= j < |words| && (text == [] || text[0] != '(')
    ensures !At(words + text, words, j)
  {
    var s := words + text;
    assert s[j] == words[j];
    if j == 11 {
      assert s[12] == words[12];
      Mismatch(words, s, j, 1);
    } else if j == 20 {
      assert text != [] ==> s[21] == text[0];
      Mismatch(words, s, j, 1);
    } else {
      Mismatch(words, s, j, 0);
    }
  }

  /** A text without a bracket after a space keeps the opening words single. */
  lemma OnceWithout(words: Bytes, text: Bytes)
    requires Opening(words) && '(' !in text
    ensures Once(words, text)
  {
    forall j: nat | j >= 1
      ensures !At(words + text, words, j)
    {
      if j < |words| {
        NoOverlap(words, text, j);
      } else {
        assert j + 1 < |words + text| ==> (words + text)[j + 1] == text[j + 1 - |words|];
        Mismatch(words, words + text, j, 1);
      }
    }
  }

  /** The last place of the opening words, when they do not come again behind the closing bracket. */
  lemma MarkerIsLast(words: Bytes, front: Bytes, text: Bytes, rest: Bytes)
    requires Opening(words) && Once(words, text) && rest != [] && rest[0] == ')' && NotIn(words, rest)
    ensures LastIndex(front + (words + text) + rest, words) == |front|
  {
    var middle := words + text;
    var s := front + middle + rest;
    forall j: nat | j > |front|
      ensures !At(s, words, j)
    {
      NotLater(words, front, text, rest, j);
    }
    assert At(s, words, |front|);
    LastIndexIs(s, words, |front|);
  }

  lemma NotLater(words: Bytes, front: Bytes, text: Bytes, rest: Bytes, j: nat)
    requires Opening(words) && Once(words, text) && rest != [] && rest[0] == ')' && NotIn(words, rest)
    requires j > |front|
    ensures !At(front + (words + text) + rest, words, j)
  {
    var middle := words + text;
    var s := front + middle + rest;
    var k := j - |front|;
    if k + |words| <= |middle| {
      Shifted(words, front, middle, rest, k);
      assert !At(middle, words, k);
    } else if k <= |middle| {
      assert s[|front| + |middle|] == rest[0];
      assert words[|middle| - k] in words;
      Mismatch(words, s, j, |middle| - k);
    } else {
      Shifted(words, front + middle, rest, [], k - |middle|);
      assert !At(rest, words, k - |middle|);
    }
  }

  /** A place inside the middle part is a place of the whole. */
  lemma Shifted(words: Bytes, front: Bytes, middle: Bytes, rest: Bytes, k: nat)
    requires k + |words| <= |middle| || rest == []
    ensures At(front + middle + rest, words, |front| + k) <==> At(middle, words, k)
  {
    var s := front + middle + rest;
    assert s[|front|..|front| + |middle|] == middle;
  }

  lemma NoBracketInSuffix(ordinal: nat, j: nat)
    requires j < |Suffix(ordinal)|
    ensures Suffix(ordinal)[j] != '('
  {
    DecimalDigits(ordinal);
    assert j > 0 ==> Suffix(ordinal)[j] == Decimal(ordinal)[j - 1] && Decimal(ordinal)[j - 1] in Decimal(ordinal);
  }

  lemma NotInSuffix(words: Bytes, ordinal: nat, ext: Bytes)
    requires Opening(words) && NotIn(words, ext) && (ext == [] || ext[0] == '.')
    ensures NotIn(words, ")" + Suffix(ordinal) + ext)
  {
    forall j: nat
      ensures !At(")" + Suffix(ordinal) + ext, words, j)
    {
      NotInSuffixAt(words, Suffix(ordinal), ordinal, ext, j);
    }
  }

  lemma NotInSuffixAt(words: Bytes, suffix: Bytes, ordinal: nat, ext: Bytes, j: nat)
    requires Opening(words) && NotIn(words, ext) && (ext == [] || ext[0] == '.') && suffix == Suffix(ordinal)
    ensures !At(")" + suffix + ext, words, j)
  {
    var front: Bytes := ")" + suffix;
    var s := front + ext;
    if j >= |front| {
      Shifted(words, front, ext, [], j - |front|);
      assert front + ext + [] == s;
      assert !At(ext, words, j - |front|);
    } else if j + 1 == |front| {
      assert j + 1 < |s| ==> s[j + 1] == ext[0];
      Mismatch(words, s, j, 1);
    } else {
      NoBracketInSuffix(ordinal, j);
      assert s[j + 1] == front[j + 1] == suffix[j];
      Mismatch(words, s, j, 1);
    }
  }

  // ---- printing and reading back undo each other ----

  /** What stands between the opening words and the bracket: readable, closed by the first bracket. */
  ghost predicate IsText(rules: Rules, text: Bytes) {
    ValidText(rules, text) && ')' !in text && Once(rules.opening, text)
  }

  /** Stem and extension as they come from splitting a name. */
  ghost predicate IsSplit(stem: Bytes, ext: Bytes) {
    if ext == [] then forall i :: 1 <= i < |stem| ==> stem[i] != '.'
    else ext[0] == '.' && '.' !in ext[1..]
  }

  function PrintStem(rules: Rules, stem: Bytes, text: Bytes, ordinal: nat): Bytes {
    stem + (rules.opening + text) + (")" + Suffix(ordinal))
  }

  function PrintCopy(rules: Rules, stem: Bytes, text: Bytes, ext: Bytes, ordinal: nat): Bytes {
    PrintStem(rules, stem, text, ordinal) + ext
  }

  lemma NoDotInText(rules: Rules, text: Bytes)
    requires TimesSound(rules) && FieldsSound(rules) && ValidText(rules, text)
    ensures '.' !in text
  {
    var parts := rules.fields(text);
    assert '.' !in parts[0] && '.' !in parts[1];
  }

  lemma NoDotInPrinted(rules: Rules, stem: Bytes, text: Bytes, ordinal: nat, i: nat)
    requires Opening(rules.opening) && '.' !in text && |stem| <= i < |PrintStem(rules, stem, text, ordinal)|
    ensures PrintStem(rules, stem, text, ordinal)[i] != '.'
  {
    DecimalDigits(ordinal);
    var rest := (rules.opening + text) + (")" + Suffix(ordinal));
    assert PrintStem(rules, stem, text, ordinal)[i] == rest[i - |stem|];
    assert '.' !in Suffix(ordinal);
    assert rest[i - |stem|] in rest;
  }

  lemma NotDotAfter(leaf: Bytes, i: nat)
    requires LastIndex(leaf, ".") < i < |leaf|
    ensures leaf[i] != '.'
  {
    AtByte(leaf, '.', i);
    if leaf[i] == '.' {
      LastIndexLast(leaf, ".", i);
    }
  }

  /** The extension of a printed copy is the one that was printed. */
  lemma ExtensionOfCopy(front: Bytes, ext: Bytes)
    requires front != [] && IsSplit(front, ext)
    ensures ExtensionAt(front + ext) == |front|
  {
    var leaf := front + ext;
    var dot := LastIndex(leaf, ".");
    if ext != [] {
      forall j | j > |front|
        ensures !At(leaf, ".", j)
      {
        AtByte(leaf, '.', j);
        assert j < |leaf| ==> leaf[j] == ext[1..][j - |front| - 1];
      }
      AtByte(leaf, '.', |front|);
      LastIndexIs(leaf, ".", |front|);
    } else {
      AtByte(leaf, '.', dot);
      assert leaf == front;
    }
  }

  lemma RestParses(rules: Rules, parent: Bytes, stem: Bytes, text: Bytes, ext: Bytes, ordinal: nat)
    requires ValidText(rules, text) && ')' !in text && 1 <= ordinal <= MaxOrdinal
    ensures ParseRest(rules, parent, stem, text + (")" + Suffix(ordinal)), ext) ==
              Some(Family(false, parent, stem, text, ext, ordinal))
  {
    var rest := text + (")" + Suffix(ordinal));
    assert rest[..|text|] == text && rest[|text| + 1..] == Suffix(ordinal);
    IndexByteIs(rest, ')', |text|);
    if ordinal > 1 {
      assert Suffix(ordinal)[1..] == Decimal(ordinal);
      OrdinalExact(Decimal(ordinal), 2, ordinal);
    }
  }

  /** Reading a printed stem gives its parts back. */
  lemma StemParses(rules: Rules, parent: Bytes, stem: Bytes, text: Bytes, ext: Bytes, ordinal: nat)
    requires Opening(rules.opening) && IsText(rules, text) && 1 <= ordinal <= MaxOrdinal
    ensures ParseStem(rules, parent, PrintStem(rules, stem, text, ordinal), ext) ==
              Some(Family(false, parent, stem, text, ext, ordinal))
  {
    var words := rules.opening;
    var tail := ")" + Suffix(ordinal);
    NotInNothing(words);
    NotInSuffix(words, ordinal, []);
    assert tail + [] == tail;
    MarkerIsLast(words, stem, text, tail);
    SlicesOf(stem, words, text, tail);
    RestParses(rules, parent, stem, text, ext, ordinal);
  }

  lemma NotInNothing(words: Bytes)
    requires words != []
    ensures NotIn(words, [])
  {
  }

  lemma SlicesOf(stem: Bytes, words: Bytes, text: Bytes, tail: Bytes)
    ensures var s := stem + (words + text) + tail;
            s[..|stem|] == stem && s[|stem| + |words|..] == text + tail
  {
  }

  /** Reading a printed copy name gives its parts back. */
  lemma CopyParses(rules: Rules, parent: Bytes, stem: Bytes, text: Bytes, ext: Bytes, ordinal: nat)
    requires RulesSound(rules) && IsText(rules, text) && IsSplit(stem, ext) && 1 <= ordinal <= MaxOrdinal
    ensures ParseCopy(rules, parent, PrintCopy(rules, stem, text, ext, ordinal)) ==
              Some(Family(false, parent, stem, text, ext, ordinal))
  {
    var front := PrintStem(rules, stem, text, ordinal);
    var leaf := front + ext;
    NoDotInText(rules, text);
    if ext == [] {
      forall i | 1 <= i < |front|
        ensures front[i] != '.'
      {
        if i >= |stem| {
          NoDotInPrinted(rules, stem, text, ordinal, i);
        }
      }
    }
    ExtensionOfCopy(front, ext);
    assert leaf[..|front|] == front && leaf[|front|..] == ext;
    StemParses(rules, parent, stem, text, ext, ordinal);
  }

  lemma SuffixPrints(suffix: Bytes)
    requires ParseSuffix(suffix).Some?
    ensures 1 <= ParseSuffix(suffix).value <= MaxOrdinal && suffix == Suffix(ParseSuffix(suffix).value)
  {
    if suffix != [] {
      OrdinalExact(suffix[1..], 2, ParseSuffix(suffix).value);
      assert suffix == " " + suffix[1..];
    }
  }

  lemma RestPrints(rules: Rules, parent: Bytes, stem: Bytes, rest: Bytes, ext: Bytes)
    requires ParseRest(rules, parent, stem, rest, ext).Some?
    ensures var f := ParseRest(rules, parent, stem, rest, ext).value;
            && rest == f.text + (")" + Suffix(f.ordinal)) && 1 <= f.ordinal <= MaxOrdinal
            && ValidText(rules, f.text) && ')' !in f.text && f == Family(false, parent, stem, f.text, ext, f.ordinal)
  {
    var end := IndexByte(rest, ')');
    SuffixPrints(rest[end + 1..]);
    CutAtBracket(rest, end);
  }

  lemma CutAtBracket(rest: Bytes, end: nat)
    requires end < |rest| && rest[end] == ')'
    ensures rest == rest[..end] + (")" + rest[end + 1..])
  {
  }

  lemma AtIsSlice(s: Bytes, words: Bytes, at: nat)
    requires At(s, words, at)
    ensures s[at..at + |words|] == words && s == s[..at] + words + s[at + |words|..]
  {
  }

  lemma NotLaterIn(words: Bytes, front: Bytes, middle: Bytes, tail: Bytes, j: nat)
    requires LastIndex(front + middle + tail, words) == |front| && j >= 1
    ensures !At(middle, words, j)
  {
    var s := front + middle + tail;
    if j + |words| <= |middle| {
      Shifted(words, front, middle, tail, j);
      if At(s, words, |front| + j) {
        LastIndexLast(s, words, |front| + j);
      }
    }
  }

  /** Behind the last opening words there are no others. */
  lemma LastIsOnce(words: Bytes, front: Bytes, text: Bytes, tail: Bytes)
    requires LastIndex(front + (words + text) + tail, words) == |front|
    ensures Once(words, text)
  {
    forall j: nat | j >= 1
      ensures !At(words + text, words, j)
    {
      NotLaterIn(words, front, words + text, tail, j);
    }
  }

  /** A stem that can be read is the printed form of what was read. */
  lemma StemPrints(rules: Rules, parent: Bytes, stem: Bytes, ext: Bytes)
    requires Opening(rules.opening) && ParseStem(rules, parent, stem, ext).Some?
    ensures var f := ParseStem(rules, parent, stem, ext).value;
            && stem == PrintStem(rules, f.stem, f.text, f.ordinal) && 1 <= f.ordinal <= MaxOrdinal
            && IsText(rules, f.text) && !f.fallback && f.ext == ext && f.parent == parent && f.stem <= stem
  {
    var words := rules.opening;
    var f := ParseStem(rules, parent, stem, ext).value;
    var at := LastIndex(stem, words);
    RestPrints(rules, parent, stem[..at], stem[at + |words|..], ext);
    AtIsSlice(stem, words, at);
    Reassociate(f.stem, words, f.text, ")" + Suffix(f.ordinal));
    LastIsOnce(words, f.stem, f.text, ")" + Suffix(f.ordinal));
  }

  lemma Reassociate(a: Bytes, b: Bytes, c: Bytes, d: Bytes)
    ensures a + b + (c + d) == a + (b + c) + d
  {
  }

  /** A name that is read as a copy is the printed form of what was read. */
  lemma CopyPrints(rules: Rules, parent: Bytes, leaf: Bytes)
    requires Opening(rules.opening) && ParseCopy(rules, parent, leaf).Some?
    ensures var f := ParseCopy(rules, parent, leaf).value;
            && leaf == PrintCopy(rules, f.stem, f.text, f.ext, f.ordinal) && 1 <= f.ordinal <= MaxOrdinal
            && IsText(rules, f.text) && IsSplit(f.stem, f.ext) && !f.fallback && f.parent == parent
  {
    var cut := ExtensionAt(leaf);
    StemPrints(rules, parent, leaf[..cut], leaf[cut..]);
    assert leaf == leaf[..cut] + leaf[cut..];
    SplitOfName(leaf, ParseCopy(rules, parent, leaf).value.stem);
  }

  lemma SplitOfName(leaf: Bytes, stem: Bytes)
    requires stem <= leaf[..ExtensionAt(leaf)]
    ensures IsSplit(stem, leaf[ExtensionAt(leaf)..])
  {
    var cut := ExtensionAt(leaf);
    var ext := leaf[cut..];
    if ext == [] {
      forall i | 1 <= i < |stem|
        ensures stem[i] != '.'
      {
        NotDotAfter(leaf, i);
      }
    } else {
      AtByte(leaf, '.', cut);
      assert ext[0] == leaf[cut];
      forall i | 0 <= i < |ext[1..]|
        ensures ext[1..][i] != '.'
      {
        NotDotAfter(leaf, cut + 1 + i);
      }
    }
  }

  function PrintFallback(rules: Rules, seed: Bytes, stem: Bytes, ordinal: nat): Bytes {
    (seed + "-") + stem + FallbackMarker(rules, ordinal)
  }

  /** Reading a printed fallback name gives its parts back. */
  lemma FallbackParses(rules: Rules, parent: Bytes, seed: Bytes, stem: Bytes, ordinal: nat)
    requires Opening(rules.opening) && |seed| == 12 && IsLowerHex(seed) && 1 <= ordinal <= MaxOrdinal
    ensures ParseFallback(rules, parent, PrintFallback(rules, seed, stem, ordinal)) ==
              Some(Family(true, parent, stem, [], [], ordinal))
  {
    var words, number := rules.opening, Decimal(ordinal);
    var front := (seed + "-") + stem;
    DecimalDigits(ordinal);
    OnceWithout(words, number);
    MarkerIsLast(words, front, number, ")");
    FallbackSlices(seed, stem, words, number);
    OrdinalExact(number, 1, ordinal);
  }

  lemma FallbackSlices(seed: Bytes, stem: Bytes, words: Bytes, number: Bytes)
    requires |seed| == 12
    ensures var leaf, at := (seed + "-") + stem + (words + number + ")"), 13 + |stem|;
            && leaf == (seed + "-") + stem + (words + number) + ")"
            && leaf[at + |words|..|leaf| - 1] == number && leaf[|leaf| - 1] == ')'
            && leaf[..12] == seed && leaf[12] == '-' && leaf[13..at] == stem
  {
  }

  /** A name that is read as a fallback name is the printed form of what was read. */
  lemma FallbackPrints(rules: Rules, parent: Bytes, leaf: Bytes)
    requires Opening(rules.opening) && ParseFallback(rules, parent, leaf).Some?
    ensures var f := ParseFallback(rules, parent, leaf).value;
            && |leaf| >= 12 && IsLowerHex(leaf[..12]) && leaf == PrintFallback(rules, leaf[..12], f.stem, f.ordinal)
            && 1 <= f.ordinal <= MaxOrdinal && f.fallback && f.parent == parent
  {
    var f := ParseFallback(rules, parent, leaf).value;
    var at := LastIndex(leaf, rules.opening);
    OrdinalExact(leaf[at + |rules.opening|..|leaf| - 1], 1, f.ordinal);
    FallbackPieces(leaf, rules.opening, at);
  }

  lemma FallbackPieces(leaf: Bytes, words: Bytes, at: int)
    requires 13 <= at && at + |words| < |leaf| && At(leaf, words, at) && leaf[12] == '-' && leaf[|leaf| - 1] == ')'
    ensures leaf == (leaf[..12] + "-") + leaf[13..at] + (words + leaf[at + |words|..|leaf| - 1] + ")")
  {
    AtIsSlice(leaf, words, at);
    assert leaf[..13] == leaf[..12] + "-";
    assert leaf[..at] == leaf[..13] + leaf[13..at];
    assert leaf[at + |words|..] == leaf[at + |words|..|leaf| - 1] + ")";
  }

  /** A copy whose extension holds no opening words is never taken for a fallback name. */
  lemma CopyIsNotFallback(rules: Rules, parent: Bytes, stem: Bytes, text: Bytes, ext: Bytes, ordinal: nat)
    requires RulesSound(rules) && IsText(rules, text) && IsSplit(stem, ext) && NotIn(rules.opening, ext)
    ensures ParseFallback(rules, parent, PrintCopy(rules, stem, text, ext, ordinal)).None?
  {
    var words := rules.opening;
    var tail := ")" + Suffix(ordinal) + ext;
    NotInSuffix(words, ordinal, ext);
    MarkerIsLast(words, stem, text, tail);
    SlicesOf(stem, words, text, tail);
    PrintedWithTail(rules, stem, text, ext, ordinal);
    NotFallbackRest(rules, parent, PrintCopy(rules, stem, text, ext, ordinal), text, tail);
  }

  lemma PrintedWithTail(rules: Rules, stem: Bytes, text: Bytes, ext: Bytes, ordinal: nat)
    ensures PrintCopy(rules, stem, text, ext, ordinal) == stem + (rules.opening + text) + (")" + Suffix(ordinal) + ext)
  {
  }

  lemma NotFallbackRest(rules: Rules, parent: Bytes, leaf: Bytes, text: Bytes, tail: Bytes)
    requires !AllDigits(text) && tail != []
    requires var from := LastIndex(leaf, rules.opening) + |rules.opening|;
             0 <= from <= |leaf| && leaf[from..] == text + tail
    ensures ParseFallback(rules, parent, leaf).None?
  {
    var from := LastIndex(leaf, rules.opening) + |rules.opening|;
    var i :| 0 <= i < |text| && !IsDigit(text[i]);
    NotANumber(text, tail, i);
    assert leaf[from..|leaf| - 1] == leaf[from..][..|leaf| - 1 - from];
  }

  lemma NotANumber(text: Bytes, tail: Bytes, i: nat)
    requires i < |text| && !IsDigit(text[i]) && tail != []
    ensures !AllDigits((text + tail)[..|text + tail| - 1])
  {
    var number := (text + tail)[..|text + tail| - 1];
    assert number[i] == text[i] && number[i] in number;
  }
}
