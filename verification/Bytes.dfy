/** Byte strings: the program's strings and buffers, their order, and big-endian numbers. */
module Bytes {
  type Byte = c: char | c as int < 256 witness 'a'

  type Bytes = seq<Byte>

  function ToByte(n: nat): (b: Byte)
    requires n < 256
    ensures b as int == n
  {
    n as char
  }

  // ---- order ----

  /** Lexicographic order, as the program compares strings. */
  predicate Less(a: Bytes, b: Bytes) {
    if b == [] then false
    else if a == [] then true
    else if a[0] != b[0] then a[0] as int < b[0] as int
    else Less(a[1..], b[1..])
  }

  lemma {:induction false} LessTrans(a: Bytes, b: Bytes, c: Bytes)
    requires Less(a, b) && Less(b, c)
    ensures Less(a, c)
  {
    if a != [] && a[0] == b[0] == c[0] {
      LessTrans(a[1..], b[1..], c[1..]);
    }
  }

  lemma {:induction false} LessTotal(a: Bytes, b: Bytes)
    ensures (a == b || Less(a, b) || Less(b, a)) && !(Less(a, b) && Less(b, a)) && !Less(a, a)
  {
    LessIrreflexive(a);
    if a != [] && b != [] && a[0] == b[0] {
      LessTotal(a[1..], b[1..]);
      assert a == [a[0]] + a[1..] && b == [b[0]] + b[1..];
    }
  }

  lemma {:induction false} LessIrreflexive(a: Bytes)
    ensures !Less(a, a)
  {
    if a != [] {
      LessIrreflexive(a[1..]);
    }
  }

  /** Strictly increasing. */
  predicate Increasing(names: seq<Bytes>) {
    forall i, j :: 0 <= i < j < |names| ==> Less(names[i], names[j])
  }

  // ---- big-endian numbers ----

  const TWO_16: nat := 0x1_0000
  const TWO_32: nat := 0x1_0000_0000
  const TWO_63: nat := 0x8000_0000_0000_0000
  const TWO_64: nat := 0x1_0000_0000_0000_0000

  function PutUint16(n: nat): (b: Bytes)
    requires n < TWO_16
    ensures |b| == 2
  {
    [ToByte(n / 256), ToByte(n % 256)]
  }

  function Uint16(b: Bytes): (n: nat)
    requires |b| == 2
    ensures n < TWO_16
  {
    256 * (b[0] as int) + b[1] as int
  }

  function PutUint32(n: nat): (b: Bytes)
    requires n < TWO_32
    ensures |b| == 4
  {
    PutUint16(n / TWO_16) + PutUint16(n % TWO_16)
  }

  function Uint32(b: Bytes): (n: nat)
    requires |b| == 4
    ensures n < TWO_32
  {
    TWO_16 * Uint16(b[..2]) + Uint16(b[2..])
  }

  function PutUint64(n: nat): (b: Bytes)
    requires n < TWO_64
    ensures |b| == 8
  {
    PutUint32(n / TWO_32) + PutUint32(n % TWO_32)
  }

  function Uint64(b: Bytes): (n: nat)
    requires |b| == 8
    ensures n < TWO_64
  {
    TWO_32 * Uint32(b[..4]) + Uint32(b[4..])
  }

  lemma Uint16Inverse(n: nat, b: Bytes)
    requires n < TWO_16 && |b| == 2
    ensures Uint16(PutUint16(n)) == n && PutUint16(Uint16(b)) == b
  {
  }

  lemma HalvesOf32(high: nat, low: nat)
    requires high < TWO_16 && low < TWO_16
    ensures TWO_16 * high + low < TWO_32
    ensures (TWO_16 * high + low) / TWO_16 == high && (TWO_16 * high + low) % TWO_16 == low
  {
  }

  lemma Uint32Inverse(n: nat, b: Bytes)
    requires n < TWO_32 && |b| == 4
    ensures Uint32(PutUint32(n)) == n && PutUint32(Uint32(b)) == b
  {
    var high, low := n / TWO_16, n % TWO_16;
    var p := PutUint32(n);
    assert p[..2] == PutUint16(high) && p[2..] == PutUint16(low);
    Uint16Inverse(high, b[..2]);
    Uint16Inverse(low, b[2..]);
    HalvesOf32(Uint16(b[..2]), Uint16(b[2..]));
    assert b == b[..2] + b[2..];
  }

  lemma Uint64Inverse(n: nat, b: Bytes)
    requires n < TWO_64 && |b| == 8
    ensures Uint64(PutUint64(n)) == n && PutUint64(Uint64(b)) == b
  {
    Uint32Inverse(n / TWO_32, b[..4]);
    Uint32Inverse(n % TWO_32, b[4..]);
    assert PutUint64(n)[..4] == PutUint32(n / TWO_32) && PutUint64(n)[4..] == PutUint32(n % TWO_32);
    assert b == b[..4] + b[4..];
  }

  // ---- identities ----

  predicate IsLowerHex(text: Bytes) {
    forall i :: 0 <= i < |text| ==> '0' <= text[i] <= '9' || 'a' <= text[i] <= 'f'
  }

  /** An object identity: a SHA-256 digest in lower-case hexadecimal. */
  predicate ValidId(id: Bytes) {
    |id| == 64 && IsLowerHex(id)
  }
}
