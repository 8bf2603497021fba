/** UTF-8 text as bytes, and cutting it to a length without splitting a character. */
module Utf8 {
  import opened Bytes

  predicate RuneStart(b: Byte) {
    !(0x80 <= b as int < 0xC0)
  }

  predicate Between(b: Byte, low: int, high: int) {
    low <= b as int <= high
  }

  /** The number of bytes of the first character, by the table of RFC 3629 section 4; 0 when there is none. */
  function RuneSize(s: Bytes): (n: nat)
    ensures n <= |s|
    ensures forall i :: 1 <= i < n ==> !RuneStart(s[i])
  {
    if s == [] then 0
    else
      var lead := s[0] as int;
      if lead < 0x80 then 1
      else if 0xC2 <= lead <= 0xDF then
        if |s| >= 2 && Between(s[1], 0x80, 0xBF) then 2 else 0
      else if 0xE0 <= lead <= 0xEF then
        if |s| >= 3 && Between(s[1], if lead == 0xE0 then 0xA0 else 0x80, if lead == 0xED then 0x9F else 0xBF)
           && Between(s[2], 0x80, 0xBF) then 3 else 0
      else if 0xF0 <= lead <= 0xF4 then
        if |s| >= 4 && Between(s[1], if lead == 0xF0 then 0x90 else 0x80, if lead == 0xF4 then 0x8F else 0xBF)
           && Between(s[2], 0x80, 0xBF) && Between(s[3], 0x80, 0xBF) then 4 else 0
      else 0
  }

  predicate IsUtf8(s: Bytes) {
    s == [] || (RuneSize(s) > 0 && IsUtf8(s[RuneSize(s)..]))
  }

  /** The longest prefix of at most `limit` bytes that ends before a character start. */
  function Truncated(value: Bytes, limit: int): (r: Bytes)
    ensures r <= value && |r| <= if limit < 0 then 0 else limit
    decreases limit
  {
    if limit <= 0 then []
    else if |value| <= limit then value
    else if RuneStart(value[limit]) then value[..limit]
    else Truncated(value, limit - 1)
  }

  /** It is the longest one. */
  lemma {:induction false} TruncatedLongest(value: Bytes, limit: int, k: nat)
    requires |Truncated(value, limit)| < k <= |value| && k <= limit
    ensures k < |value| && !RuneStart(value[k])
    decreases limit
  {
    if 0 < limit < |value| && !RuneStart(value[limit]) && k < limit {
      TruncatedLongest(value, limit - 1, k);
    }
  }

  lemma {:induction false} TruncatedAtBoundary(value: Bytes, limit: int)
    ensures var n := |Truncated(value, limit)|; n == 0 || n == |value| || RuneStart(value[n])
    decreases limit
  {
    if 0 < limit < |value| && !RuneStart(value[limit]) {
      TruncatedAtBoundary(value, limit - 1);
    }
  }

  lemma {:induction false} CutAtBoundary(s: Bytes, k: nat)
    requires IsUtf8(s) && k <= |s| && (k == 0 || k == |s| || RuneStart(s[k]))
    ensures IsUtf8(s[..k]) && IsUtf8(s[k..])
  {
    var n := RuneSize(s);
    if k == |s| {
      assert s[..k] == s;
    } else if k == 0 {
      assert s[k..] == s;
    } else {
      var front := s[..k];
      assert k >= n;
      assert |front[n..]| == k - n && front[n..] == s[n..][..k - n];
      assert RuneSize(front) == n && s[k..] == s[n..][k - n..];
      CutAtBoundary(s[n..], k - n);
    }
  }

  lemma {:induction false} Utf8Concat(a: Bytes, b: Bytes)
    requires IsUtf8(a) && IsUtf8(b)
    ensures IsUtf8(a + b)
  {
    if a == [] {
      assert a + b == b;
    } else {
      var n := RuneSize(a);
      assert RuneSize(a + b) == n && (a + b)[n..] == a[n..] + b;
      Utf8Concat(a[n..], b);
    }
  }

  lemma FourAreUtf8(a: Bytes, b: Bytes, c: Bytes, d: Bytes)
    requires IsUtf8(a) && IsUtf8(b) && IsUtf8(c) && IsUtf8(d)
    ensures IsUtf8(a + b + c + d)
  {
    Utf8Concat(a, b);
    Utf8Concat(a + b, c);
    Utf8Concat(a + b + c, d);
  }

  predicate Ascii(s: Bytes) {
    forall i :: 0 <= i < |s| ==> s[i] as int < 0x80
  }

  lemma {:induction false} AsciiIsUtf8(s: Bytes)
    requires Ascii(s)
    ensures IsUtf8(s)
  {
    if s != [] {
      AsciiIsUtf8(s[1..]);
    }
  }

  /** Cutting text leaves text: no character is split. */
  lemma TruncatedIsUtf8(value: Bytes, limit: int)
    requires IsUtf8(value)
    ensures IsUtf8(Truncated(value, limit))
  {
    TruncatedAtBoundary(value, limit);
    var n := |Truncated(value, limit)|;
    CutAtBoundary(value, n);
    assert Truncated(value, limit) == value[..n];
  }

  method TruncateUTF8(value: Bytes, limit: int) returns (r: Bytes)
    ensures r == Truncated(value, limit)
  {
    if limit <= 0 {
      return [];
    }
    if |value| <= limit {
      return value;
    }
    var cut := limit;
    while cut > 0 && !RuneStart(value[cut])
      invariant 0 <= cut <= limit
      invariant Truncated(value, cut) == Truncated(value, limit)
    {
      cut := cut - 1;
    }
    return value[..cut];
  }
}
