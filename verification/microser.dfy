// Tagged fields: a tag byte packing a field number and a wire type, then the value,
// little-endian or behind a two-byte length.
module Microser {
  import opened Bytes

  const W8 := 0
  const W16 := 1
  const W32 := 2
  const W64 := 3
  const WBYTES := 4

  type field = x: int | 0 <= x < 32

  function Tag(f: field, wire: nat): byte
    requires wire < 8
  {
    f * 8 + wire
  }

  function FieldOf(tag: byte): field {
    tag / 8
  }

  function WireOf(tag: byte): nat {
    tag % 8
  }

  lemma TagSplits(f: field, wire: nat)
    requires wire < 8
    ensures FieldOf(Tag(f, wire)) == f && WireOf(Tag(f, wire)) == wire
  {
  }

  // ----- values -----

  function Le16(v: u16): (b: bytes)
    ensures |b| == 2
  {
    [v % 0x100, v / 0x100]
  }

  function Le32(v: u32): (b: bytes)
    ensures |b| == 4
  {
    [v % 0x100, v / 0x100 % 0x100, v / 0x1_0000 % 0x100, v / 0x100_0000]
  }

  function Get16(d: bytes): u16
    requires |d| >= 2
  {
    d[0] as int + d[1] as int * 0x100
  }

  function Get32(d: bytes): u32
    requires |d| >= 4
  {
    d[0] as int + d[1] as int * 0x100 + d[2] as int * 0x1_0000 + d[3] as int * 0x100_0000
  }

  lemma Back16(v: u16, rest: bytes)
    ensures Get16(Le16(v) + rest) == v
  {
  }

  lemma Back32(v: u32, rest: bytes)
    ensures Get32(Le32(v) + rest) == v
  {
    var d := Le32(v) + rest;
    assert d[0] == v % 0x100 && d[1] == v / 0x100 % 0x100 && d[2] == v / 0x1_0000 % 0x100 && d[3] == v / 0x100_0000;
    Digits32(v);
  }

  lemma Digits32(v: u32)
    ensures v == v % 0x100 + v / 0x100 % 0x100 * 0x100 + v / 0x1_0000 % 0x100 * 0x1_0000 + v / 0x100_0000 * 0x100_0000
  {
    assert v / 0x100 == v / 0x1_0000 * 0x100 + v / 0x100 % 0x100;
    assert v / 0x1_0000 == v / 0x100_0000 * 0x100 + v / 0x1_0000 % 0x100;
  }

  // ----- whole fields -----

  function Field16(f: field, v: u16): bytes {
    [Tag(f, W16)] + Le16(v)
  }

  function Field32(f: field, v: u32): bytes {
    [Tag(f, W32)] + Le32(v)
  }

  function FieldBytes(f: field, data: bytes): bytes
    requires |data| < 0x1_0000
  {
    [Tag(f, WBYTES)] + Le16(|data|) + data
  }

  // How many bytes the value at the front takes, given its wire type; -1 when it runs past
  // the end or the wire type is unknown.
  function Extent(d: bytes, wire: nat): (n: int)
    ensures -1 <= n <= |d|
  {
    if wire == WBYTES then
      if |d| < 2 || |d| < 2 + Get16(d) then -1 else 2 + Get16(d)
    else if wire > WBYTES then -1
    else
      var n := if wire == W8 then 1 else if wire == W16 then 2 else if wire == W32 then 4 else 8;
      if |d| < n then -1 else n
  }

  // What follows a value does not matter to where it ends.
  lemma ExtentStable(d: bytes, rest: bytes, wire: nat)
    requires Extent(d, wire) != -1
    ensures Extent(d + rest, wire) == Extent(d, wire)
  {
    if wire == WBYTES {
      assert (d + rest)[0] == d[0] && (d + rest)[1] == d[1];
    }
  }

  function Payload(d: bytes): bytes
    requires Extent(d, WBYTES) != -1
  {
    d[2..Extent(d, WBYTES)]
  }

  lemma PayloadBack(data: bytes, rest: bytes)
    requires |data| < 0x1_0000
    ensures var d := Le16(|data|) + data + rest;
            Extent(d, WBYTES) == 2 + |data| && Payload(d) == data && d[2 + |data|..] == rest
  {
    var d := Le16(|data|) + data + rest;
    assert Le16(|data|) + (data + rest) == d;
    Back16(|data|, data + rest);
    assert d[2..2 + |data|] == data;
  }

  // ----- readers and the skipper, on positions in a buffer -----

  // What a reader gives back: nothing, or the value and the position behind it.
  datatype Taken<T> = Failed | Value(next: nat, val: T)

  function Stop<T>(r: Taken<T>): int {
    if r.Failed? then -1 else r.next
  }

  function ReadU8(buf: bytes, pos: nat, end: nat): Taken<byte>
    requires end <= |buf|
  {
    if pos + 1 > end then Failed else Value(pos + 1, buf[pos])
  }

  function ReadU16(buf: bytes, pos: nat, end: nat): Taken<u16>
    requires end <= |buf|
  {
    if pos + 2 > end then Failed else Value(pos + 2, buf[pos] as int + buf[pos + 1] as int * 0x100)
  }

  function ReadU32(buf: bytes, pos: nat, end: nat): Taken<u32>
    requires end <= |buf|
  {
    if pos + 4 > end then Failed
    else
      Value(pos + 4, buf[pos] as int + buf[pos + 1] as int * 0x100
                     + buf[pos + 2] as int * 0x1_0000 + buf[pos + 3] as int * 0x100_0000)
  }

  // Bytes as a number, least significant first.
  function LeValue(d: bytes): nat {
    if d == [] then 0 else d[0] as int + 0x100 * LeValue(d[1..])
  }

  function Weight(i: nat): nat {
    if i == 0 then 1 else 0x100 * Weight(i - 1)
  }

  lemma {:induction false} LeAppend(d: bytes, b: byte)
    ensures LeValue(d + [b]) == LeValue(d) + b as int * Weight(|d|)
  {
    if d == [] {
      assert d + [b] == [b] && [b][1..] == [];
    } else {
      assert (d + [b])[1..] == d[1..] + [b];
      LeAppend(d[1..], b);
      WeightShifts(b, |d|);
    }
  }

  lemma WeightShifts(b: byte, n: nat)
    requires n > 0
    ensures 0x100 * (b as int * Weight(n - 1)) == b as int * Weight(n)
  {
  }

  function Word64(buf: bytes, pos: nat, end: nat): Taken<nat>
    requires end <= |buf|
  {
    if pos + 8 > end then Failed else Value(pos + 8, LeValue(buf[pos..pos + 8]))
  }

  method ReadU64(buf: bytes, pos: nat, end: nat) returns (r: Taken<nat>)
    requires end <= |buf|
    ensures r == Word64(buf, pos, end)
  {
    if pos + 8 > end {
      return Failed;
    }
    var v, w := 0, 1;
    for i := 0 to 8
      invariant v == LeValue(buf[pos..pos + i]) && w == Weight(i)
    {
      LeAppend(buf[pos..pos + i], buf[pos + i]);
      assert buf[pos..pos + i] + [buf[pos + i]] == buf[pos..pos + i + 1];
      v, w := v + buf[pos + i] as int * w, 0x100 * w;
    }
    r := Value(pos + 8, v);
  }

  // A length-prefixed field, refused when longer than the reader takes.
  function ReadBytes(buf: bytes, pos: nat, end: nat, dmax: u16): Taken<bytes>
    requires end <= |buf|
  {
    if pos + 2 > end then Failed
    else
      var dlen := buf[pos] as int + buf[pos + 1] as int * 0x100;
      if pos + 2 + dlen > end || dlen > dmax then Failed
      else Value(pos + 2 + dlen, buf[pos + 2..pos + 2 + dlen])
  }

  // Stepping over a value of this wire type; -1 when that runs past the end.
  function Skip(buf: bytes, pos: nat, end: nat, wire: nat): int
    requires end <= |buf|
  {
    if wire <= W64 then
      var next := pos + [1, 2, 4, 8][wire];
      if next <= end then next else -1
    else if wire == WBYTES then
      if pos + 2 > end then -1
      else
        var next := pos + 2 + (buf[pos] as int + buf[pos + 1] as int * 0x100);
        if next <= end then next else -1
    else -1
  }

  // Main result: skipping a field stops where reading it would, and fails when that would;
  // only the reader of length-prefixed fields also refuses one longer than it takes.
  lemma SkipStopsWithReaders(buf: bytes, pos: nat, end: nat, dmax: u16)
    requires end <= |buf|
    ensures Skip(buf, pos, end, W8) == Stop(ReadU8(buf, pos, end))
    ensures Skip(buf, pos, end, W16) == Stop(ReadU16(buf, pos, end))
    ensures Skip(buf, pos, end, W32) == Stop(ReadU32(buf, pos, end))
    ensures Skip(buf, pos, end, W64) == Stop(Word64(buf, pos, end))
    ensures var skip, read := Skip(buf, pos, end, WBYTES), ReadBytes(buf, pos, end, dmax);
            && (Stop(read) == skip || read.Failed?)
            && (read.Failed? <==> skip == -1 || skip - pos - 2 > dmax)
            && (read.Value? ==> |read.val| <= dmax && read.next == pos + 2 + |read.val|)
  {
  }

  // On the bytes between the two positions, skipping takes what Extent says.
  lemma SkipTakesExtent(buf: bytes, pos: nat, end: nat, wire: nat)
    requires pos <= end <= |buf|
    ensures var n := Extent(buf[pos..end], wire); Skip(buf, pos, end, wire) == if n == -1 then -1 else pos + n
  {
    var d := buf[pos..end];
    if |d| >= 2 {
      assert d[0] == buf[pos] && d[1] == buf[pos + 1];
    }
  }

  lemma SliceOfSlice(buf: bytes, pos: nat, end: nat, i: nat, j: nat)
    requires pos <= end <= |buf| && i <= j <= end - pos
    ensures buf[pos..end][i..j] == buf[pos + i..pos + j]
  {
    var a, b := buf[pos..end][i..j], buf[pos + i..pos + j];
    forall k | 0 <= k < |a| ensures a[k] == b[k] {
      assert a[k] == buf[pos..end][i + k] == buf[pos + (i + k)];
    }
  }

  // And the values the readers find are those the codec lemmas speak of.
  lemma ReadersSee(buf: bytes, pos: nat, end: nat, dmax: u16)
    requires pos <= end <= |buf|
    ensures var d := buf[pos..end];
            && (var r := ReadU16(buf, pos, end); r.Value? ==> |d| >= 2 && r.val == Get16(d))
            && (var r := ReadU32(buf, pos, end); r.Value? ==> |d| >= 4 && r.val == Get32(d))
            && (var r := ReadBytes(buf, pos, end, dmax); r.Value? ==> Extent(d, WBYTES) != -1 && r.val == Payload(d))
  {
    var d := buf[pos..end];
    if |d| >= 2 {
      assert d[0] == buf[pos] && d[1] == buf[pos + 1];
      var r := ReadBytes(buf, pos, end, dmax);
      if r.Value? {
        SliceOfSlice(buf, pos, end, 2, 2 + Get16(d));
      }
    }
  }
}
