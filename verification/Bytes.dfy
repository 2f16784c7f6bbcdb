/** Bytes, machine-width numbers and their big-endian encodings. */
module Bytes {

  type Byte = b: int | 0 <= b < 0x100
  type U16 = n: int | 0 <= n < 0x1_0000
  type U32 = n: int | 0 <= n < 0x1_0000_0000
  const U64_MODULUS: nat := 0x1_0000_0000_0000_0000
  type U64 = n: int | 0 <= n < U64_MODULUS

  function PutU16(n: U16): (s: seq<Byte>)
    ensures |s| == 2 && GetU16(s) == n
  {
    [n / 0x100, n % 0x100]
  }

  function GetU16(s: seq<Byte>): (n: U16)
    requires |s| == 2
  {
    (s[0] as int) * 0x100 + s[1]
  }

  function PutU32(n: U32): (s: seq<Byte>)
    ensures |s| == 4 && GetU32(s) == n
  {
    var s := PutU16(n / 0x1_0000) + PutU16(n % 0x1_0000);
    assert s[..2] == PutU16(n / 0x1_0000) && s[2..] == PutU16(n % 0x1_0000);
    s
  }

  function GetU32(s: seq<Byte>): (n: U32)
    requires |s| == 4
  {
    (GetU16(s[..2]) as int) * 0x1_0000 + GetU16(s[2..])
  }

  lemma PutGetU16(s: seq<Byte>)
    requires |s| == 2
    ensures PutU16(GetU16(s)) == s
  {
    assert GetU16(s) / 0x100 == s[0];
  }

  lemma PutGetU32(s: seq<Byte>)
    requires |s| == 4
    ensures PutU32(GetU32(s)) == s
  {
    PutGetU16(s[..2]);
    PutGetU16(s[2..]);
    assert GetU32(s) / 0x1_0000 == GetU16(s[..2]);
    assert s == s[..2] + s[2..];
  }

  /** The number that bytes denote, the first being the highest. */
  function BigEndian(s: seq<Byte>): nat
  {
    if s == [] then 0 else BigEndian(s[..|s| - 1]) * 0x100 + s[|s| - 1]
  }

  lemma ReadsU16(s: seq<Byte>)
    requires |s| == 2
    ensures BigEndian(s) == GetU16(s)
  {
    assert s[..1][..0] == [];
    assert BigEndian(s[..1]) == BigEndian([]) * 0x100 + s[0];
  }

  lemma ReadsU32(s: seq<Byte>)
    requires |s| == 4
    ensures BigEndian(s) == GetU32(s)
  {
    ReadsU16(s[..2]);
    assert s[..3][..2] == s[..2];
    assert BigEndian(s) == (BigEndian(s[..2]) * 0x100 + s[2]) * 0x100 + s[3];
  }

  function Zeros(n: nat): (s: seq<Byte>)
    ensures |s| == n && forall i :: 0 <= i < n ==> s[i] == 0
  {
    seq(n, _ => 0)
  }

  lemma ZerosSplit(a: nat, b: nat)
    ensures Zeros(a + b) == Zeros(a) + Zeros(b)
  {
  }

  /** Named so that long concatenations need not be compared element by element. */
  lemma Assoc<T>(a: seq<T>, b: seq<T>, c: seq<T>)
    ensures (a + b) + c == a + (b + c)
  {
  }

  /** Concatenation of a sequence of byte strings. */
  function Flat(parts: seq<seq<Byte>>): seq<Byte>
  {
    if parts == [] then [] else parts[0] + Flat(parts[1..])
  }

  lemma {:induction false} FlatConcat(a: seq<seq<Byte>>, b: seq<seq<Byte>>)
    ensures Flat(a + b) == Flat(a) + Flat(b)
  {
    if a == [] {
      assert a + b == b;
    } else {
      assert (a + b)[1..] == a[1..] + b;
      FlatConcat(a[1..], b);
    }
  }

  lemma FlatSnoc(a: seq<seq<Byte>>, part: seq<Byte>)
    ensures Flat(a + [part]) == Flat(a) + part
  {
    FlatConcat(a, [part]);
    assert Flat([part]) == part + Flat([]);
  }
}
