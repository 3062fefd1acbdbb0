// Bytes and fixed-width unsigned words, as they travel on the wire.
module Bytes {
  type byte = x: int | 0 <= x < 0x100
  type u16 = x: int | 0 <= x < 0x1_0000
  type u32 = x: int | 0 <= x < 0x1_0000_0000
  type bytes = seq<byte>

  function Min(a: nat, b: nat): nat {
    if a <= b then a else b
  }

  function Flag(b: bool): nat {
    if b then 1 else 0
  }

  function Zeros(n: nat): (z: bytes)
    ensures |z| == n
  {
    if n == 0 then [] else Zeros(n - 1) + [0]
  }

  function Pow2(n: nat): nat {
    if n == 0 then 1 else 2 * Pow2(n - 1)
  }

  // ----- arithmetic that wraps -----

  function Next16(a: u16): u16 {
    if a == 0xffff then 0 else a + 1
  }

  function Plus16(a: u16, n: nat): u16
    requires n <= 0x1_0000
  {
    if a + n < 0x1_0000 then a + n else a + n - 0x1_0000
  }

  // The 16-bit difference a - b.
  function Dist(a: u16, b: u16): u16 {
    if a >= b then a - b else a - b + 0x1_0000
  }

  function Plus32(a: u32, n: u32): u32 {
    if a + n < 0x1_0000_0000 then a + n else a + n - 0x1_0000_0000
  }

  function Minus32(a: u32, n: u32): u32 {
    if a >= n then a - n else a - n + 0x1_0000_0000
  }

  // ----- words on the wire -----

  // Big-endian writers and readers.
  function Wr16(v: u16): (b: bytes)
    ensures |b| == 2
  {
    [v / 0x100, v % 0x100]
  }

  function Wr32(v: u32): (b: bytes)
    ensures |b| == 4
  {
    [v / 0x100_0000, v / 0x1_0000 % 0x100, v / 0x100 % 0x100, v % 0x100]
  }

  function Rd16(b: bytes, at: nat): u16
    requires at + 2 <= |b|
  {
    b[at] as int * 0x100 + b[at + 1]
  }

  function Rd32(b: bytes, at: nat): u32
    requires at + 4 <= |b|
  {
    b[at] as int * 0x100_0000 + b[at + 1] as int * 0x1_0000 + b[at + 2] as int * 0x100 + b[at + 3]
  }

  // Reading back what was written, wherever it sits in a packet.
  lemma ReadBack16(b: bytes, at: nat, v: u16)
    requires at + 2 <= |b| && b[at..at + 2] == Wr16(v)
    ensures Rd16(b, at) == v
  {
    assert b[at] == b[at..at + 2][0] && b[at + 1] == b[at..at + 2][1];
  }

  lemma ReadBack32(b: bytes, at: nat, v: u32)
    requires at + 4 <= |b| && b[at..at + 4] == Wr32(v)
    ensures Rd32(b, at) == v
  {
    var w := b[at..at + 4];
    assert b[at] == w[0] && b[at + 1] == w[1] && b[at + 2] == w[2] && b[at + 3] == w[3];
    assert v / 0x1_0000 == v / 0x100_0000 * 0x100 + v / 0x1_0000 % 0x100;
    assert v / 0x100 == v / 0x1_0000 * 0x100 + v / 0x100 % 0x100;
  }
}
