/** Records of length-prefixed fields followed by a fixed-width number. */
module RecordReader {
  import opened Wrappers
  import opened Bytes

  /** One field: its length, truncated to two bytes, then its bytes. */
  function Field(data: Bytes): Bytes {
    PutUint16(|data| % TWO_16) + data
  }

  function Fields(fields: seq<Bytes>): Bytes {
    if fields == [] then [] else Field(fields[0]) + Fields(fields[1..])
  }

  lemma {:induction false} FieldsAppend(fields: seq<Bytes>, last: Bytes)
    ensures Fields(fields + [last]) == Fields(fields) + Field(last)
  {
    if fields == [] {
      assert Fields([last]) == Field(last) + Fields([]);
    } else {
      FieldsAppend(fields[1..], last);
      assert (fields + [last])[1..] == fields[1..] + [last];
    }
  }

  predicate Fits(field: Bytes) {
    1 <= |field| < TWO_16
  }

  ghost predicate AllFit(fields: seq<Bytes>) {
    forall i :: 0 <= i < |fields| ==> Fits(fields[i])
  }

  /** A non-empty field that fits its length begins at `offset`. */
  ghost predicate FieldAt(data: Bytes, offset: nat, field: Bytes) {
    offset <= |data| && Fits(field) && Field(field) <= data[offset..]
  }

  lemma FieldHeader(data: Bytes, offset: nat, field: Bytes)
    requires FieldAt(data, offset, field)
    ensures |data| - offset >= 2 + |field| && Uint16(data[offset..offset + 2]) == |field|
    ensures data[offset + 2..offset + 2 + |field|] == field
    ensures data[offset..offset + 2 + |field|] == Field(field)
  {
    var whole := Field(field);
    assert data[offset..][..|whole|] == whole;
    assert data[offset..offset + 2] == whole[..2];
    Uint16Inverse(|field|, PutUint16(|field|));
    assert data[offset + 2..offset + 2 + |field|] == whole[2..];
  }

  lemma FieldFrom(data: Bytes, offset: nat, field: Bytes)
    requires offset + 2 + |field| <= |data| && Fits(field)
    requires Uint16(data[offset..offset + 2]) == |field| && field == data[offset + 2..offset + 2 + |field|]
    ensures FieldAt(data, offset, field)
  {
    Uint16Inverse(|field|, data[offset..offset + 2]);
    assert data[offset..][..2 + |field|] == data[offset..offset + 2] + field;
  }

  lemma NoField(data: Bytes, offset: nat, field: Bytes)
    requires offset + 2 <= |data|
    requires var size := Uint16(data[offset..offset + 2]); size == 0 || size > |data| - (offset + 2)
    ensures !FieldAt(data, offset, field)
  {
    if FieldAt(data, offset, field) {
      FieldHeader(data, offset, field);
    }
  }

  /** Reads the field at `offset`, if there is one. */
  method ReadField(data: Bytes, offset: nat) returns (r: Option<Bytes>)
    requires offset <= |data|
    ensures r.Some? ==> FieldAt(data, offset, r.value)
    ensures r.None? ==> forall field :: !FieldAt(data, offset, field)
  {
    if |data| - offset < 2 {
      return None;
    }
    var size := Uint16(data[offset..offset + 2]);
    if size == 0 || size > |data| - (offset + 2) {
      forall field
        ensures !FieldAt(data, offset, field)
      {
        NoField(data, offset, field);
      }
      return None;
    }
    r := Some(data[offset + 2..offset + 2 + size]);
    FieldFrom(data, offset, r.value);
  }

  /** The fields' encoding is what lies between `start` and `end`. */
  ghost predicate Between(fields: seq<Bytes>, data: Bytes, start: nat, end: nat) {
    start <= end <= |data| && AllFit(fields) && data[start..end] == Fields(fields)
  }

  ghost predicate FieldsAt(data: Bytes, offset: nat, fields: seq<Bytes>) {
    Between(fields, data, offset, offset + |Fields(fields)|)
  }

  lemma BetweenMore(fields: seq<Bytes>, data: Bytes, start: nat, end: nat, next: Bytes)
    requires Between(fields, data, start, end) && FieldAt(data, end, next)
    ensures Between(fields + [next], data, start, end + 2 + |next|)
  {
    FieldHeader(data, end, next);
    FieldsAppend(fields, next);
    assert data[start..end + 2 + |next|] == data[start..end] + data[end..end + 2 + |next|];
  }

  /** A list whose beginning has been read goes on with the field at the place reached. */
  lemma {:induction false} NextField(fields: seq<Bytes>, read: seq<Bytes>, data: Bytes, start: nat, end: nat)
    requires FieldsAt(data, start, fields) && Between(read, data, start, end)
    requires read <= fields && |read| < |fields|
    ensures FieldAt(data, end, fields[|read|])
  {
    SplitAt(fields, |read|);
    assert fields[..|read|] == read;
    var rest := Fields(fields[|read|..]);
    var all := data[start..start + |Fields(fields)|];
    assert all == Fields(read) + rest;
    assert data[end..][..|rest|] == all[|Fields(read)|..];
    assert Fits(fields[|read|]) && Field(fields[|read|]) <= rest;
    assert data[end..][..|Field(fields[|read|])|] == rest[..|Field(fields[|read|])|];
  }

  lemma {:induction false} SplitAt(fields: seq<Bytes>, i: nat)
    requires i <= |fields|
    ensures Fields(fields) == Fields(fields[..i]) + Fields(fields[i..])
  {
    if i > 0 {
      SplitAt(fields[1..], i - 1);
      assert fields[1..][..i - 1] == fields[..i][1..] && fields[1..][i - 1..] == fields[i..];
    } else {
      assert fields[i..] == fields;
    }
  }

  lemma FieldUnique(data: Bytes, offset: nat, a: Bytes, b: Bytes)
    requires FieldAt(data, offset, a) && FieldAt(data, offset, b)
    ensures a == b
  {
    FieldHeader(data, offset, a);
    FieldHeader(data, offset, b);
  }

  /** What a list that is really there still has to look like, given what was read. */
  ghost predicate Continues(fields: seq<Bytes>, read: seq<Bytes>, data: Bytes, start: nat, count: nat) {
    |fields| == count && FieldsAt(data, start, fields) ==> read <= fields
  }

  /** Reads `count` fields, if they are there. */
  method ReadFields(data: Bytes, start: nat, count: nat) returns (r: Option<seq<Bytes>>)
    requires start <= |data|
    ensures r.Some? ==> |r.value| == count && FieldsAt(data, start, r.value)
    ensures r.Some? ==> forall fields :: |fields| == count && FieldsAt(data, start, fields) ==> fields == r.value
    ensures r.None? ==> forall fields :: |fields| == count ==> !FieldsAt(data, start, fields)
  {
    var read: seq<Bytes> := [];
    var offset: nat := start;
    while |read| < count
      invariant |read| <= count && Between(read, data, start, offset)
      invariant forall fields :: Continues(fields, read, data, start, count)
    {
      var next := ReadField(data, offset);
      forall fields | |fields| == count && FieldsAt(data, start, fields)
        ensures next.Some? && read + [next.value] <= fields
      {
        assert Continues(fields, read, data, start, count);
        NextField(fields, read, data, start, offset);
        FieldUnique(data, offset, next.value, fields[|read|]);
      }
      if next.None? {
        return None;
      }
      BetweenMore(read, data, start, offset, next.value);
      read := read + [next.value];
      offset := offset + 2 + |next.value|;
    }
    forall fields | |fields| == count && FieldsAt(data, start, fields)
      ensures fields == read
    {
      assert Continues(fields, read, data, start, count);
    }
    return Some(read);
  }
}
