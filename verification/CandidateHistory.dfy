/** The pending record's list of superseded candidate commits, in its FCH1 encoding. */
module CandidateHistory {
  import opened Wrappers
  import opened Bytes
  import opened ByteBuffer

  const MaxCommits: nat := 1024
  const MaxCommitBytes: nat := 64 * 1024
  const MaxHistoryBytes: nat := 8 + MaxCommits * (MaxCommitBytes + 4)
  const Magic: Bytes := "FCH1"

  datatype HistoryError = TooManyCommits | CommitSize | BadHeader | BadItems

  /** The histories that can be stored: few enough commits, each non-empty and small enough. */
  ghost predicate Storable(commits: seq<Bytes>) {
    |commits| <= MaxCommits && forall i :: 0 <= i < |commits| ==> 1 <= |commits[i]| <= MaxCommitBytes
  }

  function Encoding(commits: seq<Bytes>): Bytes
    requires Storable(commits)
  {
    Magic + PutUint32(|commits|) + Items(commits)
  }

  lemma {:induction false} ItemsSize(commits: seq<Bytes>)
    requires forall i :: 0 <= i < |commits| ==> 1 <= |commits[i]| <= MaxCommitBytes
    ensures |Items(commits)| <= |commits| * (MaxCommitBytes + 4)
  {
    if commits != [] {
      ItemsSize(commits[1..]);
    }
  }

  /** Encodes exactly the storable histories, in a buffer of exactly the size computed beforehand. */
  method EncodeCandidateHistory(commits: seq<Bytes>) returns (r: Result<Bytes, HistoryError>)
    ensures r.Ok? <==> Storable(commits)
    ensures r.Ok? ==> r.value == Encoding(commits) && |r.value| <= MaxHistoryBytes
  {
    if |commits| > MaxCommits {
      return Err(TooManyCommits);
    }
    var size := HistorySize(commits);
    if size.None? {
      return Err(CommitSize);
    }
    ItemsSize(commits);
    var buffer := new Byte[size.value];
    Put(buffer, 0, Magic);
    Put(buffer, 4, PutUint32(|commits|));
    WriteItems(buffer, 8, commits);
    return Ok(buffer[..]);
  }

  lemma SizeStep(commits: seq<Bytes>, i: nat)
    requires i < |commits| <= MaxCommits && forall j :: 0 <= j < i ==> 1 <= |commits[j]| <= MaxCommitBytes
    ensures 8 + |Items(commits[..i])| <= MaxHistoryBytes - 4 - MaxCommitBytes
    ensures |commits[i]| < TWO_32 ==> |Items(commits[..i + 1])| == |Items(commits[..i])| + 4 + |commits[i]|
  {
    ItemsSize(commits[..i]);
    assert commits[..i + 1] == commits[..i] + [commits[i]];
    if |commits[i]| < TWO_32 {
      ItemsAppend(commits[..i], commits[i]);
    }
  }

  /** The exact size of the encoding, unless a commit is empty or too large. */
  method HistorySize(commits: seq<Bytes>) returns (r: Option<nat>)
    requires |commits| <= MaxCommits
    ensures r.Some? <==> Storable(commits)
    ensures r.Some? ==> r.value == 8 + |Items(commits)|
  {
    var size: nat, i := 8, 0;
    while i < |commits|
      invariant 0 <= i <= |commits|
      invariant forall j :: 0 <= j < i ==> 1 <= |commits[j]| <= MaxCommitBytes
      invariant size == 8 + |Items(commits[..i])|
    {
      SizeStep(commits, i);
      if commits[i] == [] || |commits[i]| > MaxCommitBytes || size > MaxHistoryBytes - 4 - |commits[i]| {
        return None;
      }
      size := size + 4 + |commits[i]|;
      i := i + 1;
    }
    assert commits[..|commits|] == commits;
    return Some(size);
  }

  ghost predicate EncodesTo(commits: seq<Bytes>, data: Bytes) {
    Storable(commits) && Encoding(commits) == data
  }

  /** The encoding opens with its magic and its count; the rest is the items. */
  lemma EncodingParts(commits: seq<Bytes>, data: Bytes)
    requires EncodesTo(commits, data)
    ensures 8 <= |data| <= MaxHistoryBytes && data[..4] == Magic && Uint32(data[4..8]) == |commits|
    ensures ItemsAre(commits, data, 8, |commits|, MaxCommitBytes)
  {
    ItemsSize(commits);
    Uint32Inverse(|commits|, PutUint32(|commits|));
    assert data[4..8] == PutUint32(|commits|) && data[8..] == Items(commits);
  }

  lemma EncodingWhole(commits: seq<Bytes>, data: Bytes)
    requires 8 <= |data| && data[..4] == Magic && Uint32(data[4..8]) == |commits| <= MaxCommits
    requires ItemsAre(commits, data, 8, |commits|, MaxCommitBytes)
    ensures EncodesTo(commits, data)
  {
    Uint32Inverse(|commits|, data[4..8]);
    assert data == data[..4] + data[4..8] + data[8..];
  }

  /**
    The strict decoder is the exact inverse of the encoder: it succeeds on a byte string just when
    some storable history encodes to it, and returns that history. So decoding an encoding gives
    the history back, and every accepted byte string is the encoding of what it decodes to.
   */
  method DecodeCandidateHistory(data: Bytes) returns (r: Result<seq<Bytes>, HistoryError>)
    ensures r.Ok? ==> EncodesTo(r.value, data)
    ensures r.Err? ==> forall commits :: !EncodesTo(commits, data)
  {
    forall commits | EncodesTo(commits, data)
      ensures 8 <= |data| <= MaxHistoryBytes && data[..4] == Magic && Uint32(data[4..8]) == |commits|
      ensures ItemsAre(commits, data, 8, Uint32(data[4..8]), MaxCommitBytes)
    {
      EncodingParts(commits, data);
    }
    if |data| < 8 || |data| > MaxHistoryBytes || data[..4] != Magic {
      return Err(BadHeader);
    }
    var count := Uint32(data[4..8]);
    if count > MaxCommits {
      return Err(TooManyCommits);
    }
    var items := ReadItems(data, 8, count, MaxCommitBytes);
    if items.None? {
      return Err(BadItems);
    }
    EncodingWhole(items.value, data);
    var canonical := EncodeCandidateHistory(items.value);
    // The program compares this re-encoding with the input; the comparison cannot fail.
    assert canonical == Ok(data);
    return Ok(items.value);
  }

  /** No two histories share an encoding, so decoding an encoding returns what was encoded. */
  lemma EncodingInjective(a: seq<Bytes>, b: seq<Bytes>, data: Bytes)
    requires EncodesTo(a, data) && EncodesTo(b, data)
    ensures a == b
  {
    EncodingParts(a, data);
    EncodingParts(b, data);
    ItemsInjective(a, b);
  }
}
