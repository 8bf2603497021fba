/** Sorting values by a byte-string key, as the encoders do before they write. */
module Sorting {
  import opened Bytes

  predicate AtMost(a: Bytes, b: Bytes) {
    a == b || Less(a, b)
  }

  ghost predicate SortedBy<T(!new)>(key: T -> Bytes, values: seq<T>) {
    forall i, j :: 0 <= i < j < |values| ==> AtMost(key(values[i]), key(values[j]))
  }

  /** Strictly increasing keys: sorted without two equal keys. */
  ghost predicate IncreasingBy<T(!new)>(key: T -> Bytes, values: seq<T>) {
    forall i, j :: 0 <= i < j < |values| ==> Less(key(values[i]), key(values[j]))
  }

  function Insert<T>(key: T -> Bytes, value: T, values: seq<T>): seq<T> {
    if values == [] || Less(key(value), key(values[0])) then [value] + values
    else [values[0]] + Insert(key, value, values[1..])
  }

  function Sort<T>(key: T -> Bytes, values: seq<T>): seq<T> {
    if values == [] then [] else Insert(key, values[0], Sort(key, values[1..]))
  }

  lemma {:induction false} InsertKeepsAll<T(!new)>(key: T -> Bytes, value: T, values: seq<T>)
    ensures multiset(Insert(key, value, values)) == multiset(values) + multiset{value}
  {
    if values != [] && !Less(key(value), key(values[0])) {
      InsertKeepsAll(key, value, values[1..]);
      assert values == [values[0]] + values[1..];
    }
  }

  /** Everything that `Insert` returns was there or is the new value. */
  lemma InsertMembers<T(!new)>(key: T -> Bytes, value: T, values: seq<T>, member: T)
    requires member in Insert(key, value, values)
    ensures member == value || member in values
  {
    InsertKeepsAll(key, value, values);
    assert member in multiset(Insert(key, value, values));
    assert member in multiset(values) + multiset{value};
  }

  lemma SortedCons<T(!new)>(key: T -> Bytes, first: T, rest: seq<T>)
    requires SortedBy(key, rest)
    requires forall member :: member in rest ==> AtMost(key(first), key(member))
    ensures SortedBy(key, [first] + rest)
  {
    var all := [first] + rest;
    forall i, j | 0 <= i < j < |all|
      ensures AtMost(key(all[i]), key(all[j]))
    {
      assert all[j] == rest[j - 1] && rest[j - 1] in rest;
      if i > 0 {
        assert all[i] == rest[i - 1];
      }
    }
  }

  lemma SortedTail<T(!new)>(key: T -> Bytes, values: seq<T>)
    requires SortedBy(key, values) && values != []
    ensures SortedBy(key, values[1..])
    ensures forall member :: member in values ==> AtMost(key(values[0]), key(member))
  {
    var rest := values[1..];
    forall i, j | 0 <= i < j < |rest|
      ensures AtMost(key(rest[i]), key(rest[j]))
    {
      assert rest[i] == values[i + 1] && rest[j] == values[j + 1];
    }
    forall member | member in values
      ensures AtMost(key(values[0]), key(member))
    {
      var j :| 0 <= j < |values| && values[j] == member;
      assert j > 0 ==> AtMost(key(values[0]), key(values[j]));
    }
  }

  lemma AtMostTrans(a: Bytes, b: Bytes, c: Bytes)
    requires AtMost(a, b) && AtMost(b, c)
    ensures AtMost(a, c)
  {
    if a != b && b != c {
      LessTrans(a, b, c);
    }
  }

  lemma {:induction false} InsertSorted<T(!new)>(key: T -> Bytes, value: T, values: seq<T>)
    requires SortedBy(key, values)
    ensures SortedBy(key, Insert(key, value, values))
  {
    if values == [] {
    } else if Less(key(value), key(values[0])) {
      SortedTail(key, values);
      forall member | member in values
        ensures AtMost(key(value), key(member))
      {
        AtMostTrans(key(value), key(values[0]), key(member));
      }
      SortedCons(key, value, values);
    } else {
      var rest := Insert(key, value, values[1..]);
      SortedTail(key, values);
      InsertSorted(key, value, values[1..]);
      LessTotal(key(value), key(values[0]));
      forall member | member in rest
        ensures AtMost(key(values[0]), key(member))
      {
        InsertMembers(key, value, values[1..], member);
      }
      SortedCons(key, values[0], rest);
    }
  }

  /** Sorting yields a sorted permutation. */
  lemma {:induction false} SortSorts<T(!new)>(key: T -> Bytes, values: seq<T>)
    ensures SortedBy(key, Sort(key, values))
    ensures multiset(Sort(key, values)) == multiset(values)
    ensures |Sort(key, values)| == |values|
  {
    if values != [] {
      SortSorts(key, values[1..]);
      InsertSorted(key, values[0], Sort(key, values[1..]));
      InsertKeepsAll(key, values[0], Sort(key, values[1..]));
      assert values == [values[0]] + values[1..];
    }
    assert |Sort(key, values)| == |multiset(Sort(key, values))| == |multiset(values)| == |values|;
  }

  /** What is already sorted stays as it is. */
  lemma {:induction false} SortKeeps<T(!new)>(key: T -> Bytes, values: seq<T>)
    requires IncreasingBy(key, values)
    ensures Sort(key, values) == values
  {
    if values != [] {
      SortKeeps(key, values[1..]);
      if |values| > 1 {
        assert values[1..][0] == values[1];
      }
      assert values == [values[0]] + values[1..];
    }
  }

  lemma {:induction false} FindTwice<T(!new)>(s: seq<T>, x: T) returns (k: nat, l: nat)
    requires multiset(s)[x] >= 2
    ensures k < l < |s| && s[k] == x && s[l] == x
  {
    assert s == [s[0]] + s[1..];
    if s[0] == x {
      assert multiset(s[1..])[x] >= 1;
      assert x in s[1..];
      var m :| 0 <= m < |s[1..]| && s[1..][m] == x;
      k, l := 0, m + 1;
    } else {
      k, l := FindTwice(s[1..], x);
      k, l := k + 1, l + 1;
    }
  }

  /** A value that comes twice in a permutation comes twice in the original. */
  lemma PermutedTwice<T(!new)>(s: seq<T>, t: seq<T>, i: nat, j: nat) returns (k: nat, l: nat)
    requires multiset(s) == multiset(t) && i < j < |t| && t[i] == t[j]
    ensures k < l < |s| && s[k] == t[i] && s[l] == t[i]
  {
    var x := t[i];
    assert t == t[..j] + t[j..];
    assert t[..j][i] == x && t[j..][0] == x;
    assert x in multiset(t[..j]) && x in multiset(t[j..]);
    assert multiset(s)[x] == multiset(t[..j])[x] + multiset(t[j..])[x];
    k, l := FindTwice(s, x);
  }

  lemma SortMembers<T(!new)>(key: T -> Bytes, values: seq<T>, value: T)
    ensures value in values <==> value in Sort(key, values)
  {
    SortSorts(key, values);
    assert value in multiset(values) <==> value in multiset(Sort(key, values));
  }
}
