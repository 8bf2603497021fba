/** Searching in byte strings, and decimal numbers. */
module Text {
  import opened Wrappers
  import opened Bytes

  /** `part` stands at place `i`. */
  predicate At(s: Bytes, part: Bytes, i: int) {
    0 <= i && i + |part| <= |s| && forall k :: 0 <= k < |part| ==> s[i + k] == part[k]
  }

  /** The last place where `part` stands, or -1. */
  function LastIndex(s: Bytes, part: Bytes): (r: int)
    ensures -1 <= r && r <= |s|
    ensures r >= 0 ==> At(s, part, r)
  {
    if |s| < |part| then -1
    else if At(s, part, |s| - |part|) then |s| - |part|
    else if s == [] then -1
    else
      LastIndex(s[..|s| - 1], part)
  }

  lemma {:induction false} LastIndexLast(s: Bytes, part: Bytes, i: int)
    requires At(s, part, i)
    ensures i <= LastIndex(s, part)
  {
    if !At(s, part, |s| - |part|) && s != [] {
      LastIndexLast(s[..|s| - 1], part, i);
    }
  }

  lemma LastIndexIs(s: Bytes, part: Bytes, i: int)
    requires At(s, part, i) && forall j :: j > i ==> !At(s, part, j)
    ensures LastIndex(s, part) == i
  {
    LastIndexLast(s, part, i);
  }

  lemma AtByte(s: Bytes, c: Byte, i: int)
    ensures At(s, [c], i) <==> 0 <= i < |s| && s[i] == c
  {
    assert [c][0] == c;
  }

  /** The first place of a byte, or -1. */
  function IndexByte(s: Bytes, c: Byte): (r: int)
    ensures -1 <= r < |s|
    ensures r >= 0 ==> s[r] == c && c !in s[..r]
    ensures r < 0 ==> c !in s
  {
    if s == [] then -1
    else if s[0] == c then 0
    else
      var r := IndexByte(s[1..], c);
      assert r >= 0 ==> s[..r + 1] == [s[0]] + s[1..][..r];
      if r < 0 then -1 else r + 1
  }

  lemma {:induction false} IndexByteIs(s: Bytes, c: Byte, i: nat)
    requires i < |s| && s[i] == c && c !in s[..i]
    ensures IndexByte(s, c) == i
  {
    if i > 0 {
      assert s[..i][0] == s[0] && s[1..][..i - 1] == s[..i][1..];
      IndexByteIs(s[1..], c, i - 1);
    }
  }

  // ---- decimal numbers ----

  predicate IsDigit(c: Byte) {
    '0' <= c <= '9'
  }

  predicate AllDigits(s: Bytes) {
    forall c :: c in s ==> IsDigit(c)
  }

  function Decimal(n: nat): (s: Bytes)
    ensures s != []
  {
    (if n < 10 then [] else Decimal(n / 10)) + [ToByte('0' as int + n % 10)]
  }

  function Value(s: Bytes): nat
    requires AllDigits(s)
  {
    if s == [] then 0
    else
      assert IsDigit(s[|s| - 1]);
      10 * Value(s[..|s| - 1]) + (s[|s| - 1] as int - '0' as int)
  }

  lemma {:induction false} DecimalDigits(n: nat)
    ensures AllDigits(Decimal(n))
  {
    if n >= 10 {
      DecimalDigits(n / 10);
    }
  }

  lemma {:induction false} DecimalValue(n: nat)
    ensures AllDigits(Decimal(n)) && Value(Decimal(n)) == n
    ensures n > 0 ==> Decimal(n)[0] != '0'
  {
    var s := Decimal(n);
    if n >= 10 {
      DecimalValue(n / 10);
      assert s[..|s| - 1] == Decimal(n / 10);
    }
  }

  lemma {:induction false} ValueDecimal(s: Bytes)
    requires s != [] && AllDigits(s) && (s[0] != '0' || |s| == 1)
    ensures Decimal(Value(s)) == s
  {
    var front := s[..|s| - 1];
    assert s == front + [s[|s| - 1]] && IsDigit(s[|s| - 1]);
    if front != [] {
      assert front[0] == s[0];
      ValueDecimal(front);
      ValuePositive(front);
      NextDigit(Value(front), s[|s| - 1]);
      assert Value(s) == Value(front) * 10 + (s[|s| - 1] as int - '0' as int);
    } else {
      assert Value(front) == 0;
    }
  }

  lemma NextDigit(n: nat, c: Byte)
    requires n > 0 && IsDigit(c)
    ensures Decimal(n * 10 + (c as int - '0' as int)) == Decimal(n) + [c]
  {
    var m := n * 10 + (c as int - '0' as int);
    assert m / 10 == n && m % 10 == c as int - '0' as int;
  }

  lemma {:induction false} ValuePositive(s: Bytes)
    requires s != [] && AllDigits(s) && s[0] != '0'
    ensures Value(s) > 0
  {
    assert IsDigit(s[|s| - 1]);
    if |s| > 1 {
      assert s[..|s| - 1][0] == s[0];
      ValuePositive(s[..|s| - 1]);
    }
  }

  const MaxOrdinal: nat := 9999

  /** A number from `low` to 9999 in canonical decimal form. */
  function ParseOrdinal(s: Bytes, low: nat): Option<nat> {
    if s != [] && AllDigits(s) && s[0] != '0' && low <= Value(s) <= MaxOrdinal then Some(Value(s)) else None
  }

  /** Exactly the printed form of a number in range is accepted, as that number. */
  lemma OrdinalExact(s: Bytes, low: nat, n: nat)
    requires low >= 1
    ensures ParseOrdinal(s, low) == Some(n) <==> low <= n <= MaxOrdinal && s == Decimal(n)
  {
    DecimalValue(n);
    if ParseOrdinal(s, low) == Some(n) {
      ValueDecimal(s);
    }
  }
}
