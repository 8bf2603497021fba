/** Every name of the chain is text when the names it starts from are: no character is ever split. */
module ConflictUtf8 {
  import opened Wrappers
  import opened Bytes
  import opened Text
  import opened Paths
  import opened Utf8
  import opened ConflictNames
  import opened ConflictChain

  // ---- taking text apart ----

  /** Behind plain bytes a text goes on as text. */
  lemma {:induction false} DropAscii(a: Bytes, b: Bytes)
    requires Ascii(a) && IsUtf8(a + b)
    ensures IsUtf8(b)
  {
    if a == [] {
      assert a + b == b;
    } else {
      assert (a + b)[0] == a[0] && (a + b)[1..] == a[1..] + b;
      DropAscii(a[1..], b);
    }
  }

  /** Text can be cut before a plain byte. */
  lemma CutBefore(a: Bytes, b: Bytes)
    requires IsUtf8(a + b) && b != [] && b[0] as int < 0x80
    ensures IsUtf8(a) && IsUtf8(b)
  {
    var s := a + b;
    assert s[|a|] == b[0];
    CutAtBoundary(s, |a|);
    assert s[..|a|] == a && s[|a|..] == b;
  }

  /** Text around a plain part. */
  lemma PlainAhead(a: Bytes, plain: Bytes, b: Bytes)
    requires Ascii(plain) && plain != [] && IsUtf8(a + (plain + b))
    ensures IsUtf8(a) && IsUtf8(b)
  {
    assert (plain + b)[0] == plain[0];
    CutBefore(a, plain + b);
    DropAscii(plain, b);
  }

  lemma HexIsAscii(text: Bytes)
    requires IsLowerHex(text)
    ensures Ascii(text)
  {
  }

  lemma AsciiConcat(a: Bytes, b: Bytes)
    requires Ascii(a) && Ascii(b)
    ensures Ascii(a + b)
  {
  }

  lemma DecimalIsAscii(ordinal: nat)
    ensures Ascii(Decimal(ordinal)) && Ascii(Suffix(ordinal))
  {
    DecimalDigits(ordinal);
    forall i | 0 <= i < |Decimal(ordinal)|
      ensures Decimal(ordinal)[i] as int < 0x80
    {
      assert Decimal(ordinal)[i] in Decimal(ordinal);
    }
  }

  lemma {:induction false} LeafIsUtf8(path: Bytes)
    requires IsUtf8(path)
    ensures IsUtf8(SplitLeaf(path).parent) && IsUtf8(SplitLeaf(path).leaf)
  {
    var l := SplitLeaf(path);
    LeafEnds(path);
    if l.leaf != path {
      assert path == l.parent + (['/'] + l.leaf);
      CutBefore(l.parent, ['/'] + l.leaf);
      DropAscii(['/'], l.leaf);
    }
  }

  lemma {:induction false} LeafEnds(path: Bytes)
    ensures var l := SplitLeaf(path); (l.parent == [] && l.leaf == path) || path == l.parent + (['/'] + l.leaf)
  {
    if path != [] {
      var front := path[..|path| - 1];
      assert path == front + [path[|path| - 1]];
      if path[|path| - 1] != '/' {
        LeafEnds(front);
        var l := SplitLeaf(front);
        if front == l.parent + (['/'] + l.leaf) {
          assert path == l.parent + (['/'] + (l.leaf + [path[|path| - 1]]));
        }
      }
    }
  }

  /** The beginning of a path, up to a slash. */
  lemma {:induction false} FrontIsUtf8(parts: seq<Bytes>, k: nat)
    requires 0 < k <= |parts| && IsUtf8(Join(parts))
    ensures IsUtf8(Join(parts[..k]))
    decreases k
  {
    if k == |parts| {
      assert parts[..k] == parts;
    } else {
      JoinFront(parts, k);
      CutBefore(Join(parts[..k]), ['/'] + Join(parts[k..]));
    }
  }

  lemma {:induction false} JoinFront(parts: seq<Bytes>, k: nat)
    requires 0 < k < |parts|
    ensures Join(parts) == Join(parts[..k]) + (['/'] + Join(parts[k..]))
    decreases k
  {
    if k == 1 {
      assert parts[..1] == [parts[0]];
    } else {
      JoinFront(parts[1..], k - 1);
      assert parts[1..][..k - 1] == parts[..k][1..] && parts[1..][k - 1..] == parts[k..];
      var front, back := Join(parts[..k][1..]), ['/'] + Join(parts[k..]);
      assert parts[0] + "/" + (front + back) == (parts[0] + "/" + front) + back;
    }
  }

  // ---- what a name says is text ----

  lemma FallbackSaysUtf8(rules: Rules, parent: Bytes, leaf: Bytes)
    requires Opening(rules.opening) && IsUtf8(leaf) && ParseFallback(rules, parent, leaf).Some?
    ensures var f := ParseFallback(rules, parent, leaf).value; IsUtf8(f.stem) && IsUtf8(f.ext) && IsUtf8(f.text) && Ascii(leaf[..12])
  {
    FallbackPrints(rules, parent, leaf);
    var f := ParseFallback(rules, parent, leaf).value;
    var head, tail := leaf[..12] + "-", FallbackMarker(rules, f.ordinal);
    HexIsAscii(leaf[..12]);
    assert leaf == head + (f.stem + tail);
    DropAscii(head, f.stem + tail);
    assert tail[0] == ' ';
    CutBefore(f.stem, tail);
  }

  lemma CopySaysUtf8(rules: Rules, parent: Bytes, leaf: Bytes)
    requires Opening(rules.opening) && Ascii(rules.opening) && IsUtf8(leaf) && ParseCopy(rules, parent, leaf).Some?
    ensures var f := ParseCopy(rules, parent, leaf).value; IsUtf8(f.stem) && IsUtf8(f.ext) && IsUtf8(f.text)
  {
    CopyPrints(rules, parent, leaf);
    var f := ParseCopy(rules, parent, leaf).value;
    CopyParts(rules, f.stem, f.text, f.ext, f.ordinal);
  }

  lemma Regroup(a: Bytes, b: Bytes, c: Bytes, d: Bytes, e: Bytes)
    ensures (a + (b + c)) + d + e == a + (b + (c + (d + e)))
  {
  }

  lemma CopyParts(rules: Rules, stem: Bytes, text: Bytes, ext: Bytes, ordinal: nat)
    requires Opening(rules.opening) && Ascii(rules.opening) && IsUtf8(PrintCopy(rules, stem, text, ext, ordinal))
    ensures IsUtf8(stem) && IsUtf8(text) && IsUtf8(ext)
  {
    var tail := ")" + Suffix(ordinal);
    var inner := text + (tail + ext);
    Regroup(stem, rules.opening, text, tail, ext);
    PlainAhead(stem, rules.opening, inner);
    DecimalIsAscii(ordinal);
    AsciiConcat(")", Suffix(ordinal));
    PlainAhead(text, tail, ext);
  }

  lemma FamilySaysUtf8(rules: Rules, path: Bytes)
    requires Opening(rules.opening) && Ascii(rules.opening) && IsUtf8(path) && ParseFamily(rules, path).Some?
    ensures var f, l := ParseFamily(rules, path).value, SplitLeaf(path);
            && IsUtf8(f.stem) && IsUtf8(f.ext) && IsUtf8(f.text) && IsUtf8(f.parent)
            && (f.fallback ==> |l.leaf| >= 12 && Ascii(l.leaf[..12]))
  {
    var l := SplitLeaf(path);
    LeafIsUtf8(path);
    if ParseFallback(rules, l.parent, l.leaf).Some? {
      FallbackPrints(rules, l.parent, l.leaf);
      FallbackSaysUtf8(rules, l.parent, l.leaf);
    } else {
      CopyPrints(rules, l.parent, l.leaf);
      CopySaysUtf8(rules, l.parent, l.leaf);
    }
  }

  // ---- putting names together ----

  lemma JoinedIsUtf8(parent: Bytes, leaf: Bytes)
    requires IsUtf8(parent) && IsUtf8(leaf)
    ensures IsUtf8(JoinLeaf(parent, leaf))
  {
    AsciiIsUtf8("/");
    Utf8Concat(parent, "/");
    Utf8Concat(parent + "/", leaf);
  }

  lemma MarkerIsUtf8(rules: Rules, text: Bytes)
    requires Ascii(rules.opening) && IsUtf8(text)
    ensures IsUtf8(rules.opening + text + ")")
  {
    AsciiIsUtf8(rules.opening);
    AsciiIsUtf8(")");
    Utf8Concat(rules.opening, text);
    Utf8Concat(rules.opening + text, ")");
  }

  lemma FallbackLeafIsUtf8(rules: Rules, seed: Bytes, stem: Bytes, limit: int, ordinal: nat)
    requires Ascii(rules.opening) && Ascii(seed) && IsUtf8(stem)
    ensures IsUtf8((seed + "-") + Truncated(stem, limit) + FallbackMarker(rules, ordinal))
  {
    DecimalIsAscii(ordinal);
    AsciiConcat(rules.opening, Decimal(ordinal));
    AsciiConcat(rules.opening + Decimal(ordinal), ")");
    AsciiConcat(seed, "-");
    AsciiIsUtf8(seed + "-");
    AsciiIsUtf8(FallbackMarker(rules, ordinal));
    TruncatedIsUtf8(stem, limit);
    Utf8Concat(seed + "-", Truncated(stem, limit));
    Utf8Concat((seed + "-") + Truncated(stem, limit), FallbackMarker(rules, ordinal));
  }

  lemma CopyLeafForm(rules: Rules, f: Family, ordinal: nat) returns (limit: int)
    requires NextCopyLeaf(rules, f, ordinal).Some?
    ensures NextCopyLeaf(rules, f, ordinal).value == Truncated(f.stem, limit) + (rules.opening + f.text + ")") + Suffix(ordinal) + f.ext
  {
    limit := LeafBudget(f.parent) - (|rules.opening + f.text + ")"| + |Suffix(ordinal)| + |f.ext|);
  }

  lemma CopyLeafIsUtf8(rules: Rules, f: Family, ordinal: nat)
    requires Ascii(rules.opening) && IsUtf8(f.stem) && IsUtf8(f.text) && IsUtf8(f.ext) && NextCopyLeaf(rules, f, ordinal).Some?
    ensures IsUtf8(NextCopyLeaf(rules, f, ordinal).value)
  {
    var limit := CopyLeafForm(rules, f, ordinal);
    TruncatedIsUtf8(f.stem, limit);
    MarkerIsUtf8(rules, f.text);
    SuffixIsUtf8(ordinal);
    FourAreUtf8(Truncated(f.stem, limit), rules.opening + f.text + ")", Suffix(ordinal), f.ext);
  }

  /** A generated fallback name is text. */
  lemma FallbackNameIsUtf8(rules: Rules, leaf: Bytes, parent: Bytes, seedId: Bytes, ordinal: nat)
    requires Ascii(rules.opening) && IsUtf8(leaf) && FallbackName(rules, leaf, parent, seedId, ordinal).Some?
    ensures IsUtf8(FallbackName(rules, leaf, parent, seedId, ordinal).value)
  {
    HexIsAscii(seedId[..12]);
    FallbackLeafIsUtf8(rules, seedId[..12], leaf, LeafBudget(parent) - (13 + |FallbackMarker(rules, ordinal)|), ordinal);
  }

  // ---- the chain ----

  lemma NextFallbackIsUtf8(rules: Rules, f: Family, seed: Bytes, ordinal: nat, leaf: Bytes)
    requires Ascii(rules.opening) && Ascii(seed) && IsUtf8(f.stem) && NextFallbackLeaf(rules, f, seed, ordinal) == Some(leaf)
    ensures IsUtf8(leaf)
  {
    FallbackLeafIsUtf8(rules, seed, f.stem, LeafBudget(f.parent) - (13 + |FallbackMarker(rules, ordinal)|), ordinal);
  }

  lemma NextOfIsUtf8(rules: Rules, f: Family, leaf: Bytes)
    requires Ascii(rules.opening) && IsUtf8(f.parent) && IsUtf8(f.stem) && IsUtf8(f.text) && IsUtf8(f.ext)
    requires f.fallback ==> Ascii(FirstTwelve(leaf))
    requires NextOf(rules, f, leaf).Some?
    ensures IsUtf8(NextOf(rules, f, leaf).value)
  {
    var next := NextLeaf(rules, f, leaf).value;
    if f.fallback {
      NextFallbackIsUtf8(rules, f, FirstTwelve(leaf), f.ordinal + 1, next);
    } else {
      CopyLeafIsUtf8(rules, f, f.ordinal + 1);
    }
    JoinedIsUtf8(f.parent, next);
  }

  lemma NextConflictIsUtf8(rules: Rules, current: Bytes)
    requires Opening(rules.opening) && Ascii(rules.opening) && IsUtf8(current) && NextConflict(rules, current).Some?
    ensures IsUtf8(NextConflict(rules, current).value)
  {
    FamilySaysUtf8(rules, current);
    NextOfIsUtf8(rules, ParseFamily(rules, current).value, SplitLeaf(current).leaf);
  }

  lemma FirstFallbackIsUtf8(rules: Rules, leaf: Bytes, seed: Bytes)
    requires Ascii(rules.opening) && IsUtf8(leaf) && FirstFallback(rules, FallbackRoot, leaf, seed).Some?
    ensures IsUtf8(FirstFallback(rules, FallbackRoot, leaf, seed).value)
  {
    FallbackNameIsUtf8(rules, leaf, FallbackRoot, seed, 1);
    AsciiIsUtf8(FallbackRoot);
    JoinedIsUtf8(FallbackRoot, FallbackName(rules, leaf, FallbackRoot, seed, 1).value);
  }

  lemma NestedCopyIsUtf8(rules: Rules, parent: Bytes, leaf: Bytes, text: Bytes)
    requires Ascii(rules.opening) && IsUtf8(parent) && IsUtf8(leaf) && IsUtf8(text) && NestedCopy(rules, parent, leaf, text).Some?
    ensures IsUtf8(NestedCopy(rules, parent, leaf, text).value)
  {
    MarkerIsUtf8(rules, text);
    CandidateIsUtf8(leaf, parent, rules.opening + text + ")", 1);
    JoinedIsUtf8(parent, CopyCandidate(leaf, parent, rules.opening + text + ")", 1).value);
  }

  lemma NextFamilyIsUtf8(rules: Rules, current: Bytes, seed: Bytes, source: Bytes)
    requires Opening(rules.opening) && Ascii(rules.opening) && IsUtf8(current) && IsUtf8(source)
    requires NextPromotion(rules, current, seed, source).Some? && NextConflict(rules, current).None?
    ensures IsUtf8(NextPromotion(rules, current, seed, source).value)
  {
    var parts := Split(current);
    var k := FamilyPrefix(Parses(rules), parts, |parts|);
    JoinSplit(current);
    FrontIsUtf8(parts, k);
    var family := ParseFamily(rules, Join(parts[..k])).value;
    FamilySaysUtf8(rules, Join(parts[..k]));
    LeafIsUtf8(source);
    LeafIsUtf8(current);
    Utf8Concat(family.stem, family.ext);
    var leaf := if source != [] then SplitLeaf(source).leaf
                else if k == |parts| then family.stem + family.ext
                else SplitLeaf(current).leaf;
    var parent := SplitLeaf(current).parent;
    var copy := if !family.fallback && k < |parts| then NestedCopy(rules, parent, leaf, family.text) else None;
    if copy.Some? {
      NestedCopyIsUtf8(rules, parent, leaf, family.text);
    } else {
      FirstFallbackIsUtf8(rules, leaf, SeedFor(family, SplitLeaf(Join(parts[..k])).leaf, seed).value);
    }
  }

  /** What every step keeps holds however far the steps go. */
  lemma {:induction false} NthKeeps(step: Bytes -> Option<Bytes>, ok: Bytes -> bool, start: Bytes, n: nat)
    requires ok(start) && forall name :: ok(name) && step(name).Some? ==> ok(step(name).value)
    ensures Nth(step, start, n).Some? ==> ok(Nth(step, start, n).value)
    decreases n
  {
    if n > 0 {
      NthKeeps(step, ok, start, n - 1);
    }
  }

  lemma NextIsUtf8(rules: Rules, current: Bytes, seed: Bytes, source: Bytes)
    requires Opening(rules.opening) && Ascii(rules.opening) && IsUtf8(current) && IsUtf8(source)
    requires NextPromotion(rules, current, seed, source).Some?
    ensures IsUtf8(NextPromotion(rules, current, seed, source).value)
  {
    if NextConflict(rules, current).Some? {
      NextConflictIsUtf8(rules, current);
    } else {
      NextFamilyIsUtf8(rules, current, seed, source);
    }
  }

  /** Every name of the chain is text, when the first name and the source are. */
  lemma ChainIsUtf8(rules: Rules, start: Bytes, seed: Bytes, source: Bytes, n: nat)
    requires Opening(rules.opening) && Ascii(rules.opening) && IsUtf8(start) && IsUtf8(source) && NthName(rules, start, seed, source, n).Some?
    ensures IsUtf8(NthName(rules, start, seed, source, n).value)
  {
    var step, ok := Next(rules, seed, source), name => IsUtf8(name);
    forall name | ok(name) && step(name).Some?
      ensures ok(step(name).value)
    {
      NextIsUtf8(rules, name, seed, source);
    }
    NthKeeps(step, ok, start, n);
  }
}
