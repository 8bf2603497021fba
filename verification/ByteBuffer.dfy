/** Writing into a fixed-size buffer, and lists of length-prefixed items. */
module ByteBuffer {
  import opened Wrappers
  import opened Bytes

  /** Copies `data` into the buffer; everything else stays. */
  method Put(buffer: array<Byte>, offset: nat, data: Bytes)
    requires offset + |data| <= buffer.Length
    modifies buffer
    ensures buffer[..offset + |data|] == old(buffer[..offset]) + data
    ensures buffer[offset + |data|..] == old(buffer[offset + |data|..])
  {
    var i := 0;
    while i < |data|
      invariant 0 <= i <= |data|
      invariant buffer[..offset] == old(buffer[..offset])
      invariant buffer[offset..offset + i] == data[..i]
      invariant buffer[offset + i..] == old(buffer[offset + i..])
    {
      buffer[offset + i] := data[i];
      i := i + 1;
    }
    assert buffer[..offset + |data|] == buffer[..offset] + buffer[offset..offset + |data|];
  }

  /** One item: its length in four bytes, then its bytes. */
  function Item(data: Bytes): Bytes
    requires |data| < TWO_32
  {
    PutUint32(|data|) + data
  }

  ghost predicate Sized(items: seq<Bytes>) {
    forall i :: 0 <= i < |items| ==> |items[i]| < TWO_32
  }

  /** The items one after the other. */
  function Items(items: seq<Bytes>): Bytes
    requires Sized(items)
  {
    if items == [] then [] else Item(items[0]) + Items(items[1..])
  }

  lemma {:induction false} ItemsAppend(items: seq<Bytes>, last: Bytes)
    requires Sized(items) && |last| < TWO_32
    ensures Items(items + [last]) == Items(items) + Item(last)
  {
    if items == [] {
      assert Items([last]) == Item(last) + Items([]);
    } else {
      ItemsAppend(items[1..], last);
      assert (items + [last])[1..] == items[1..] + [last];
    }
  }

  /** A non-empty list begins with its first item, and what follows encodes the rest. */
  lemma ItemsFirst(items: seq<Bytes>)
    requires Sized(items) && items != []
    ensures var all, n := Items(items), |items[0]|;
            && |all| >= 4 + n && Uint32(all[..4]) == n
            && all[4..4 + n] == items[0] && all[4 + n..] == Items(items[1..])
  {
    Uint32Inverse(|items[0]|, PutUint32(|items[0]|));
    assert Items(items) == PutUint32(|items[0]|) + items[0] + Items(items[1..]);
  }

  /** Writes one item. */
  method WriteItem(buffer: array<Byte>, offset: nat, data: Bytes)
    requires |data| < TWO_32 && offset + 4 + |data| <= buffer.Length
    modifies buffer
    ensures buffer[..offset + 4 + |data|] == old(buffer[..offset]) + Item(data)
  {
    ghost var front := buffer[..offset];
    Put(buffer, offset, PutUint32(|data|));
    Put(buffer, offset + 4, data);
    assert front + PutUint32(|data|) + data == front + Item(data);
  }

  lemma ItemsNext(items: seq<Bytes>, i: nat)
    requires Sized(items) && i < |items|
    ensures Items(items[i..]) == Item(items[i]) + Items(items[i + 1..])
    ensures Items(items[..i + 1]) == Items(items[..i]) + Item(items[i])
  {
    assert items[..i + 1] == items[..i] + [items[i]] && items[i..][1..] == items[i + 1..];
    ItemsAppend(items[..i], items[i]);
  }

  /** Writes the items from `start` on; they fill the buffer. */
  method WriteItems(buffer: array<Byte>, start: nat, items: seq<Bytes>)
    requires Sized(items) && start + |Items(items)| == buffer.Length
    modifies buffer
    ensures buffer[..] == old(buffer[..start]) + Items(items)
  {
    var offset, i := start, 0;
    while i < |items|
      invariant 0 <= i <= |items|
      invariant start <= offset && offset + |Items(items[i..])| == buffer.Length
      invariant buffer[..offset] == old(buffer[..start]) + Items(items[..i])
    {
      ItemsNext(items, i);
      ghost var front := buffer[..offset];
      WriteItem(buffer, offset, items[i]);
      offset := offset + 4 + |items[i]|;
      assert buffer[..offset] == front + Item(items[i]);
      i := i + 1;
    }
    assert items[..|items|] == items;
  }

  /** An item of the right size for the format begins at `offset`. */
  ghost predicate ItemAt(data: Bytes, offset: nat, maximum: nat, item: Bytes) {
    && offset <= |data|
    && 1 <= |item| <= maximum < TWO_32
    && Item(item) <= data[offset..]
  }

  /** Reads the item at `offset`, if one of an acceptable length is there. */
  method ReadItem(data: Bytes, offset: nat, maximum: nat) returns (r: Option<Bytes>)
    requires offset <= |data| && maximum < TWO_32
    ensures r.Some? ==> ItemAt(data, offset, maximum, r.value)
    ensures r.None? ==> forall item :: !ItemAt(data, offset, maximum, item)
  {
    if |data| - offset < 4 {
      return None;
    }
    var size := Uint32(data[offset..offset + 4]);
    if size == 0 || size > maximum || size > |data| - (offset + 4) {
      forall item
        ensures !ItemAt(data, offset, maximum, item)
      {
        NoItem(data, offset, maximum, item);
      }
      return None;
    }
    r := Some(data[offset + 4..offset + 4 + size]);
    ItemFrom(data, offset, maximum, r.value);
  }

  lemma NoItem(data: Bytes, offset: nat, maximum: nat, item: Bytes)
    requires offset + 4 <= |data|
    requires var size := Uint32(data[offset..offset + 4]);
             size == 0 || size > maximum || size > |data| - (offset + 4)
    ensures !ItemAt(data, offset, maximum, item)
  {
    if ItemAt(data, offset, maximum, item) {
      ItemHeader(data, offset, item);
    }
  }

  lemma ItemFrom(data: Bytes, offset: nat, maximum: nat, item: Bytes)
    requires offset + 4 + |item| <= |data| && 1 <= |item| <= maximum < TWO_32
    requires Uint32(data[offset..offset + 4]) == |item| && item == data[offset + 4..offset + 4 + |item|]
    ensures ItemAt(data, offset, maximum, item)
  {
    Uint32Inverse(|item|, data[offset..offset + 4]);
    assert data[offset..][..4 + |item|] == data[offset..offset + 4] + item;
  }

  lemma ItemHeader(data: Bytes, offset: nat, item: Bytes)
    requires offset <= |data| && |item| < TWO_32 && Item(item) <= data[offset..]
    ensures |data| - offset >= 4 + |item| && Uint32(data[offset..offset + 4]) == |item|
    ensures data[offset + 4..offset + 4 + |item|] == item
  {
    var whole := Item(item);
    assert data[offset..][..|whole|] == whole;
    assert data[offset..offset + 4] == PutUint32(|item|) by {
      assert data[offset..offset + 4] == whole[..4];
    }
    Uint32Inverse(|item|, PutUint32(|item|));
    assert data[offset + 4..offset + 4 + |item|] == whole[4..];
  }

  lemma ItemRead(data: Bytes, start: nat, offset: nat, item: Bytes)
    requires start <= offset <= |data| && |item| < TWO_32 && Item(item) <= data[offset..]
    ensures offset + 4 + |item| <= |data|
    ensures data[start..offset + 4 + |item|] == data[start..offset] + Item(item)
  {
    assert data[offset..][..4 + |item|] == data[offset..offset + 4 + |item|];
  }

  /** At most one item begins at a place. */
  lemma ItemUnique(data: Bytes, offset: nat, a: Bytes, b: Bytes)
    requires offset <= |data| && |a| < TWO_32 && |b| < TWO_32
    requires Item(a) <= data[offset..] && Item(b) <= data[offset..]
    ensures a == b
  {
    ItemHeader(data, offset, a);
    ItemHeader(data, offset, b);
  }

  /** `read` is a prefix of `items` and the encoding of the others is what is left of `data`. */
  ghost predicate ReadsAs(items: seq<Bytes>, data: Bytes, read: seq<Bytes>, offset: nat) {
    Sized(items) && offset <= |data| && read <= items && data[offset..] == Items(items[|read|..])
  }

  lemma ReadsNext(items: seq<Bytes>, data: Bytes, read: seq<Bytes>, offset: nat)
    requires ReadsAs(items, data, read, offset) && |read| < |items|
    ensures var next := items[|read|];
            && Item(next) <= data[offset..]
            && ReadsAs(items, data, read + [next], offset + 4 + |next|)
  {
    var rest := items[|read|..];
    var next := rest[0];
    assert data[offset..] == Item(next) + Items(rest[1..]);
    assert data[offset..][4 + |next|..] == data[offset + 4 + |next|..];
    assert rest[1..] == items[|read| + 1..];
  }

  /** `items` are `count` items of the right sizes, and their encoding is all of `data` from `start` on. */
  ghost predicate ItemsAre(items: seq<Bytes>, data: Bytes, start: nat, count: nat, maximum: nat) {
    && |items| == count && start <= |data| && maximum < TWO_32
    && (forall i :: 0 <= i < |items| ==> 1 <= |items[i]| <= maximum)
    && data[start..] == Items(items)
  }

  /** Reads exactly `count` items up to the end of the data; fails just when the data is not that. */
  method ReadItems(data: Bytes, start: nat, count: nat, maximum: nat) returns (r: Option<seq<Bytes>>)
    requires start <= |data| && maximum < TWO_32
    ensures r.Some? ==> ItemsAre(r.value, data, start, count, maximum)
    ensures r.None? ==> forall items :: !ItemsAre(items, data, start, count, maximum)
  {
    var read: seq<Bytes> := [];
    var offset := start;
    forall items | ItemsAre(items, data, start, count, maximum)
      ensures Pending(items, data, read, offset, count, maximum)
    {
      assert items[0..] == items;
    }
    while |read| < count
      invariant |read| <= count && start <= offset <= |data|
      invariant ReadSoFar(data, start, maximum, read, offset)
      invariant forall items :: ItemsAre(items, data, start, count, maximum) ==>
                  Pending(items, data, read, offset, count, maximum)
    {
      var item := ReadItem(data, offset, maximum);
      forall items | ItemsAre(items, data, start, count, maximum)
        ensures item.Some? && Pending(items, data, read + [item.value], offset + 4 + |item.value|, count, maximum)
      {
        PendingNext(items, data, read, offset, count, maximum, item);
      }
      if item.None? {
        return None;
      }
      ReadMore(data, start, maximum, read, offset, item.value);
      read := read + [item.value];
      offset := offset + 4 + |item.value|;
    }
    if offset != |data| {
      forall items
        ensures !ItemsAre(items, data, start, count, maximum)
      {
        if ItemsAre(items, data, start, count, maximum) {
          AllRead(items, data, read, offset, count, maximum);
        }
      }
      return None;
    }
    assert data[start..offset] == data[start..];
    return Some(read);
  }

  ghost predicate ReadSoFar(data: Bytes, start: nat, maximum: nat, read: seq<Bytes>, offset: nat) {
    && start <= offset <= |data| && maximum < TWO_32
    && (forall i :: 0 <= i < |read| ==> 1 <= |read[i]| <= maximum)
    && data[start..offset] == Items(read)
  }

  lemma ReadMore(data: Bytes, start: nat, maximum: nat, read: seq<Bytes>, offset: nat, item: Bytes)
    requires ReadSoFar(data, start, maximum, read, offset) && ItemAt(data, offset, maximum, item)
    ensures ReadSoFar(data, start, maximum, read + [item], offset + 4 + |item|)
  {
    ItemRead(data, start, offset, item);
    ItemsAppend(read, item);
  }

  /** What a list still has to be, given what was read. */
  ghost predicate Pending(items: seq<Bytes>, data: Bytes, read: seq<Bytes>, offset: nat, count: nat, maximum: nat) {
    && |items| == count && maximum < TWO_32 && |read| <= count
    && (forall i :: 0 <= i < |items| ==> 1 <= |items[i]| <= maximum)
    && ReadsAs(items, data, read, offset)
  }

  lemma PendingNext(items: seq<Bytes>, data: Bytes, read: seq<Bytes>, offset: nat, count: nat, maximum: nat, item: Option<Bytes>)
    requires Pending(items, data, read, offset, count, maximum) && |read| < count
    requires item.Some? ==> ItemAt(data, offset, maximum, item.value)
    requires item.None? ==> forall other :: !ItemAt(data, offset, maximum, other)
    ensures item.Some? && Pending(items, data, read + [item.value], offset + 4 + |item.value|, count, maximum)
  {
    ReadsNext(items, data, read, offset);
    assert ItemAt(data, offset, maximum, items[|read|]);
    ItemUnique(data, offset, items[|read|], item.value);
  }

  lemma AllRead(items: seq<Bytes>, data: Bytes, read: seq<Bytes>, offset: nat, count: nat, maximum: nat)
    requires Pending(items, data, read, offset, count, maximum) && |read| == count
    ensures offset == |data|
  {
    assert items[|read|..] == [];
  }

  /** Lists with the same encoding and length are the same. */
  lemma {:induction false} ItemsInjective(a: seq<Bytes>, b: seq<Bytes>)
    requires Sized(a) && Sized(b) && |a| == |b| && Items(a) == Items(b)
    ensures a == b
  {
    if a != [] {
      ItemsFirst(a);
      ItemsFirst(b);
      ItemsInjective(a[1..], b[1..]);
      assert a == [a[0]] + a[1..] && b == [b[0]] + b[1..];
    }
  }
}
