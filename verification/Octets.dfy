/** Bytes as integers below 256, big-endian numbers, and lists of byte strings. */
module Octets {

  type byte = b: int | 0 <= b < 0x100
  type u16 = n: int | 0 <= n < 0x1_0000
  type u32 = n: int | 0 <= n < 0x1_0000_0000
  type bytes = seq<byte>

  datatype Option<+T> = None | Some(value: T)

  function PutU16(n: u16): (r: bytes)
    ensures |r| == 2
  {
    [n / 0x100, n % 0x100]
  }

  function GetU16(b: bytes): u16
    requires |b| >= 2
  {
    (b[0] as int) * 0x100 + b[1]
  }

  function PutU32(n: u32): (r: bytes)
    ensures |r| == 4
  {
    PutU16(n / 0x1_0000) + PutU16(n % 0x1_0000)
  }

  function GetU32(b: bytes): u32
    requires |b| >= 4
  {
    (GetU16(b) as int) * 0x1_0000 + GetU16(b[2..])
  }

  lemma FourBytes(n: u32)
    ensures PutU32(n) == [n / 0x100_0000, n / 0x1_0000 % 256, n / 0x100 % 256, n % 256]
  {
    Halves(n);
  }

  lemma Halves(n: u32)
    ensures n / 0x1_0000 / 256 == n / 0x100_0000
    ensures n % 0x1_0000 / 256 == n / 0x100 % 256 && n % 0x1_0000 % 256 == n % 256
  {
    var a, b := n / 0x1_0000, n % 0x1_0000;
    assert n == a * 0x1_0000 + b;
    assert n / 0x100 == a * 0x100 + b / 0x100;
  }

  lemma U32RoundTrip(n: u32, rest: bytes)
    ensures GetU32(PutU32(n) + rest) == n
  {
    var b := PutU32(n) + rest;
    assert b[2..] == PutU16(n % 0x1_0000) + rest;
    assert b == PutU16(n / 0x1_0000) + (PutU16(n % 0x1_0000) + rest);
  }

  lemma Associate<T>(x: seq<T>, y: seq<T>, z: seq<T>)
    ensures x + (y + z) == (x + y) + z
  {}

  /** The bytes of a list of byte strings, in order. */
  function Flatten(bufs: seq<bytes>): bytes
  {
    if bufs == [] then [] else bufs[0] + Flatten(bufs[1..])
  }

  lemma {:induction false} FlattenAppend(a: seq<bytes>, b: seq<bytes>)
    ensures Flatten(a + b) == Flatten(a) + Flatten(b)
  {
    if a == [] {
      assert a + b == b;
    } else {
      assert (a + b)[1..] == a[1..] + b;
      FlattenAppend(a[1..], b);
    }
  }

  lemma FlattenPush(a: seq<bytes>, s: bytes)
    ensures Flatten(a + [s]) == Flatten(a) + s
  {
    FlattenAppend(a, [s]);
    assert Flatten([s]) == s;
  }

  /** No stored piece is empty: then a list holding anything has a nonempty head. */
  predicate NoEmpty(bufs: seq<bytes>)
  {
    forall k :: 0 <= k < |bufs| ==> bufs[k] != []
  }
}
