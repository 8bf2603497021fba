/** The restore record's list of changed paths, in its FRP1 encoding, and the checks on the record. */
module RestorePreview {
  import opened Wrappers
  import opened Bytes
  import opened ByteBuffer
  import opened Sorting
  import opened Paths

  const PathLimit: nat := 100
  const MaxPreviewBytes: nat := 8 + PathLimit * (4 + MaxPathBytes)
  const Magic: Bytes := "FRP1"
  const EmptyPreview: Bytes := Magic + PutUint32(0)

  datatype PreviewError = TooManyPaths | InvalidPath | DuplicatePath | BadHeader | BadItems | NotCanonical

  function Itself(path: Bytes): Bytes {
    path
  }

  /** At most one hundred valid paths in strictly increasing order. */
  ghost predicate Canonical(validName: Bytes -> bool, paths: seq<Bytes>) {
    && |paths| <= PathLimit
    && (forall i :: 0 <= i < |paths| ==> ValidPath(validName, paths[i]))
    && Increasing(paths)
  }

  ghost predicate Distinct(paths: seq<Bytes>) {
    forall path :: multiset(paths)[path] <= 1
  }

  lemma {:induction false} IncreasingDistinct(paths: seq<Bytes>)
    requires Increasing(paths)
    ensures Distinct(paths)
  {
    if paths != [] {
      IncreasingDistinct(paths[1..]);
      assert paths == [paths[0]] + paths[1..];
      LessIrreflexive(paths[0]);
      assert paths[0] !in paths[1..];
    }
  }

  lemma DistinctIncreasing(paths: seq<Bytes>)
    requires SortedBy(Itself, paths) && Distinct(paths)
    ensures Increasing(paths)
  {
    forall i, j | 0 <= i < j < |paths|
      ensures Less(paths[i], paths[j])
    {
      assert AtMost(Itself(paths[i]), Itself(paths[j]));
      if paths[i] == paths[j] {
        TwiceCounted(paths, i, j);
      }
    }
  }

  lemma TwiceCounted(paths: seq<Bytes>, i: nat, j: nat)
    requires i < j < |paths| && paths[i] == paths[j]
    ensures multiset(paths)[paths[i]] >= 2
  {
    var path := paths[i];
    assert paths == paths[..j] + paths[j..];
    assert paths[..j][i] == path && paths[j..][0] == path;
    assert path in multiset(paths[..j]) && path in multiset(paths[j..]);
    assert multiset(paths)[path] == multiset(paths[..j])[path] + multiset(paths[j..])[path];
  }

  lemma IncreasingMore(paths: seq<Bytes>, i: nat)
    requires i < |paths| && Increasing(paths[..i]) && (i > 0 ==> Less(paths[i - 1], paths[i]))
    ensures Increasing(paths[..i + 1])
  {
    var longer := paths[..i + 1];
    forall j, k | 0 <= j < k < |longer|
      ensures Less(longer[j], longer[k])
    {
      if k < i {
        assert Less(paths[..i][j], paths[..i][k]);
      } else if j < i - 1 {
        assert Less(paths[..i][j], paths[..i][i - 1]);
        LessTrans(paths[j], paths[i - 1], paths[i]);
      }
    }
  }

  /** Which lists can be encoded: those with few enough paths, all valid and no two equal. */
  lemma SortedCanonical(validName: Bytes -> bool, paths: seq<Bytes>)
    ensures Canonical(validName, Sort(Itself, paths)) <==>
              |paths| <= PathLimit && Distinct(paths) && forall path :: path in paths ==> ValidPath(validName, path)
  {
    var ordered := Sort(Itself, paths);
    SortSorts(Itself, paths);
    forall path
      ensures path in paths <==> path in ordered
    {
      assert path in multiset(paths) <==> path in multiset(ordered);
    }
    if Increasing(ordered) {
      IncreasingDistinct(ordered);
    }
    if Distinct(paths) {
      DistinctIncreasing(ordered);
    }
  }

  lemma {:induction false} PathsSize(paths: seq<Bytes>)
    requires forall i :: 0 <= i < |paths| ==> |paths[i]| <= MaxPathBytes
    ensures |Items(paths)| <= |paths| * (MaxPathBytes + 4)
  {
    if paths != [] {
      PathsSize(paths[1..]);
    }
  }

  function Encoding(paths: seq<Bytes>): Bytes
    requires |paths| <= PathLimit && Sized(paths)
  {
    Magic + PutUint32(|paths|) + Items(paths)
  }

  ghost predicate EncodesTo(validName: Bytes -> bool, paths: seq<Bytes>, data: Bytes) {
    Canonical(validName, paths) && Encoding(paths) == data
  }

  /** Encodes a list exactly when its sorted form is canonical, as that sorted form. */
  method EncodeRestorePreview(validName: Bytes -> bool, paths: seq<Bytes>) returns (r: Result<Bytes, PreviewError>)
    ensures r.Ok? <==> Canonical(validName, Sort(Itself, paths))
    ensures r.Ok? ==> EncodesTo(validName, Sort(Itself, paths), r.value)
    ensures r.Ok? ==> |r.value| <= MaxPreviewBytes
  {
    SortSorts(Itself, paths);
    if |paths| > PathLimit {
      return Err(TooManyPaths);
    }
    var ordered := Sort(Itself, paths);
    var bad := FirstBad(validName, ordered);
    if bad.Some? {
      return Err(bad.value);
    }
    var result := WritePreview(ordered);
    return Ok(result);
  }

  method WritePreview(ordered: seq<Bytes>) returns (result: Bytes)
    requires |ordered| <= PathLimit && forall i :: 0 <= i < |ordered| ==> |ordered[i]| <= MaxPathBytes
    ensures result == Encoding(ordered) && |result| <= MaxPreviewBytes
  {
    result := Magic + PutUint32(|ordered|);
    var i := 0;
    while i < |ordered|
      invariant 0 <= i <= |ordered|
      invariant result == Magic + PutUint32(|ordered|) + Items(ordered[..i])
    {
      // The program checks its metadata budget here; such a list never exceeds it.
      PathsSize(ordered[..i]);
      assert |result| <= MaxPreviewBytes - 4 - |ordered[i]|;
      assert ordered[..i + 1] == ordered[..i] + [ordered[i]];
      ItemsAppend(ordered[..i], ordered[i]);
      result := result + Item(ordered[i]);
      i := i + 1;
    }
    assert ordered[..|ordered|] == ordered;
    PathsSize(ordered);
  }

  /** The first path that is invalid or not above the one before it. */
  method FirstBad(validName: Bytes -> bool, paths: seq<Bytes>) returns (r: Option<PreviewError>)
    requires SortedBy(Itself, paths)
    ensures r.None? <==> (forall i :: 0 <= i < |paths| ==> ValidPath(validName, paths[i])) && Increasing(paths)
  {
    var i := 0;
    while i < |paths|
      invariant 0 <= i <= |paths|
      invariant forall j :: 0 <= j < i ==> ValidPath(validName, paths[j])
      invariant Increasing(paths[..i])
    {
      if !ValidPath(validName, paths[i]) {
        return Some(InvalidPath);
      }
      if i > 0 && paths[i - 1] == paths[i] {
        LessIrreflexive(paths[i]);
        return Some(DuplicatePath);
      }
      assert i > 0 ==> AtMost(Itself(paths[i - 1]), Itself(paths[i]));
      IncreasingMore(paths, i);
      i := i + 1;
    }
    assert paths[..|paths|] == paths;
    return None;
  }

  /** Whether the list read is in strict order and valid, as checked while reading. */
  method InOrder(validName: Bytes -> bool, paths: seq<Bytes>) returns (ok: bool)
    ensures ok <==> (forall i :: 0 <= i < |paths| ==> ValidPath(validName, paths[i])) && Increasing(paths)
  {
    var i := 0;
    while i < |paths|
      invariant 0 <= i <= |paths|
      invariant forall j :: 0 <= j < i ==> ValidPath(validName, paths[j])
      invariant Increasing(paths[..i])
    {
      if !ValidPath(validName, paths[i]) || (i > 0 && !Less(paths[i - 1], paths[i])) {
        return false;
      }
      IncreasingMore(paths, i);
      i := i + 1;
    }
    assert paths[..|paths|] == paths;
    return true;
  }

  lemma EncodingParts(validName: Bytes -> bool, paths: seq<Bytes>, data: Bytes)
    requires EncodesTo(validName, paths, data)
    requires forall name :: validName(name) ==> name != []
    ensures 8 <= |data| <= MaxPreviewBytes && data[..4] == Magic && Uint32(data[4..8]) == |paths|
    ensures ItemsAre(paths, data, 8, |paths|, MaxPathBytes)
  {
    PathsSize(paths);
    Uint32Inverse(|paths|, PutUint32(|paths|));
    assert data[4..8] == PutUint32(|paths|) && data[8..] == Items(paths);
  }

  /**
    The strict decoder accepts exactly the encodings of canonical lists, and returns the list.
    Together with the encoder: decoding an encoding gives the sorted list, and every accepted
    byte string is the encoding of what it decodes to.
   */
  method DecodeRestorePreview(validName: Bytes -> bool, data: Bytes) returns (r: Result<seq<Bytes>, PreviewError>)
    requires forall name :: validName(name) ==> name != []
    ensures r.Ok? ==> EncodesTo(validName, r.value, data)
    ensures r.Err? ==> forall paths :: !EncodesTo(validName, paths, data)
  {
    forall paths | EncodesTo(validName, paths, data)
      ensures 8 <= |data| <= MaxPreviewBytes && data[..4] == Magic && Uint32(data[4..8]) == |paths|
      ensures ItemsAre(paths, data, 8, Uint32(data[4..8]), MaxPathBytes)
    {
      EncodingParts(validName, paths, data);
    }
    if |data| < 8 || |data| > MaxPreviewBytes || data[..4] != Magic {
      return Err(BadHeader);
    }
    var count := Uint32(data[4..8]);
    if count > PathLimit {
      return Err(TooManyPaths);
    }
    var items := ReadItems(data, 8, count, MaxPathBytes);
    if items.None? {
      return Err(BadItems);
    }
    forall paths | EncodesTo(validName, paths, data)
      ensures paths == items.value
    {
      ItemsInjective(paths, items.value);
    }
    var ok := InOrder(validName, items.value);
    if !ok {
      return Err(NotCanonical);
    }
    EncodingWhole(validName, items.value, data);
    CheckAgain(validName, items.value, data);
    return Ok(items.value);
  }

  lemma EncodingWhole(validName: Bytes -> bool, paths: seq<Bytes>, data: Bytes)
    requires 8 <= |data| && data[..4] == Magic && Uint32(data[4..8]) == |paths| && Canonical(validName, paths)
    requires ItemsAre(paths, data, 8, |paths|, MaxPathBytes)
    ensures EncodesTo(validName, paths, data)
  {
    Uint32Inverse(|paths|, data[4..8]);
    assert data == data[..4] + data[4..8] + data[8..];
  }

  /** The program compares the re-encoding with the input; the comparison cannot fail. */
  method CheckAgain(validName: Bytes -> bool, paths: seq<Bytes>, data: Bytes)
    requires EncodesTo(validName, paths, data)
  {
    IncreasingSorted(paths);
    var canonical := EncodeRestorePreview(validName, paths);
    assert canonical == Ok(data);
  }

  lemma IncreasingSorted(paths: seq<Bytes>)
    requires Increasing(paths)
    ensures Sort(Itself, paths) == paths
  {
    assert IncreasingBy(Itself, paths) by {
      forall i, j | 0 <= i < j < |paths|
        ensures Less(Itself(paths[i]), Itself(paths[j]))
      {
      }
    }
    SortKeeps(Itself, paths);
  }

  /** No two canonical lists share an encoding. */
  lemma EncodingInjective(validName: Bytes -> bool, a: seq<Bytes>, b: seq<Bytes>, data: Bytes)
    requires forall name :: validName(name) ==> name != []
    requires EncodesTo(validName, a, data) && EncodesTo(validName, b, data)
    ensures a == b
  {
    EncodingParts(validName, a, data);
    EncodingParts(validName, b, data);
    ItemsInjective(a, b);
  }
}
