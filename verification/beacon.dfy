// The discovery packet: what a server announces about itself, built and parsed.
module Beacon {
  import opened Bytes
  import opened Wrappers
  import opened Microser

  const HDR := 5
  const MAX_PACKET := 512
  const MAX_STR := 64
  const KEY_LEN := 32

  const ANNOUNCE: byte := 1
  const PROBE: byte := 2
  const MAGIC: bytes := [0x4e, 0x43, 0x42, 0x31]

  const F_GAME: field := 1
  const F_WIRE: field := 2
  const F_MAJOR: field := 3
  const F_MINOR: field := 4
  const F_PORT: field := 5
  const F_PLAYERS: field := 6
  const F_CAPACITY: field := 7
  const F_MODES: field := 8
  const F_FLAGS: field := 9
  const F_INSTANCE: field := 10
  const F_NAME: field := 11
  const F_CONTACT: field := 12
  const F_KEY: field := 13

  // The numbers, in two groups by width; the text and key arrays as they lie in memory.
  datatype Small = Small(wire: u16, major: u16, minor: u16, port: u16, players: u16, capacity: u16)
  datatype Large = Large(game: u32, modes: u32, flags: u32, instance: u32)
  datatype Beacon = Beacon(small: Small, large: Large, name: bytes, contact: bytes, key: bytes, hasKey: bool)

  ghost predicate BeaconOk(b: Beacon) {
    |b.name| == MAX_STR + 1 && |b.contact| == MAX_STR + 1 && |b.key| == KEY_LEN
  }

  function Blank(): (b: Beacon)
    ensures BeaconOk(b)
  {
    Beacon(Small(0, 0, 0, 0, 0, 0), Large(0, 0, 0, 0), Zeros(MAX_STR + 1), Zeros(MAX_STR + 1), Zeros(KEY_LEN), false)
  }

  // ----- building -----

  // strnlen
  function TextLen(s: bytes, cap: nat): (n: nat)
    requires cap <= |s|
    ensures n <= cap && (n < cap ==> s[n] == 0) && forall i :: 0 <= i < n ==> s[i] != 0
  {
    if cap == 0 then 0
    else
      var n := TextLen(s, cap - 1);
      if n < cap - 1 || s[cap - 1] == 0 then n else cap
  }

  function Text(s: bytes): bytes {
    s[..TextLen(s, |s|)]
  }

  function If16(f: field, v: u16): bytes {
    if v == 0 then [] else Field16(f, v)
  }

  function If32(f: field, v: u32): bytes {
    if v == 0 then [] else Field32(f, v)
  }

  function IfText(f: field, s: bytes): bytes {
    var t := Text(s);
    if 0 < |t| <= MAX_STR then FieldBytes(f, t) else []
  }

  function IfKey(has: bool, key: bytes): bytes
    requires |key| == KEY_LEN
  {
    if has then FieldBytes(F_KEY, key) else []
  }

  // The number fields in the order they are written, then the rest.
  function Numbers(l: Large, s: Small, rest: bytes): bytes {
    If32(F_GAME, l.game) + (If16(F_WIRE, s.wire) + (If16(F_MAJOR, s.major) + (If16(F_MINOR, s.minor)
    + (If16(F_PORT, s.port) + (If16(F_PLAYERS, s.players) + (If16(F_CAPACITY, s.capacity)
    + (If32(F_MODES, l.modes) + (If32(F_FLAGS, l.flags) + (If32(F_INSTANCE, l.instance) + rest)))))))))
  }

  function Fields(b: Beacon): bytes
    requires BeaconOk(b)
  {
    Numbers(b.large, b.small, IfText(F_NAME, b.name) + (IfText(F_CONTACT, b.contact) + IfKey(b.hasKey, b.key)))
  }

  function Packet(b: Beacon): bytes
    requires BeaconOk(b)
  {
    MAGIC + [ANNOUNCE] + Fields(b)
  }

  // What nc_beacon_build returns for a buffer of this size.
  function Built(b: Beacon, outlen: nat): Option<bytes>
    requires BeaconOk(b)
  {
    if |Packet(b)| <= Min(outlen, MAX_PACKET) then Some(Packet(b)) else None
  }

  // A beacon never needs more than 212 bytes.
  lemma PacketBounded(b: Beacon)
    requires BeaconOk(b)
    ensures HDR <= |Packet(b)| <= 212
  {
    hide If16, If32, IfText, IfKey;
    Width32(F_GAME, b.large.game);
    Width16(F_WIRE, b.small.wire);
    Width16(F_MAJOR, b.small.major);
    Width16(F_MINOR, b.small.minor);
    Width16(F_PORT, b.small.port);
    Width16(F_PLAYERS, b.small.players);
    Width16(F_CAPACITY, b.small.capacity);
    Width32(F_MODES, b.large.modes);
    Width32(F_FLAGS, b.large.flags);
    Width32(F_INSTANCE, b.large.instance);
    WidthText(F_NAME, b.name);
    WidthText(F_CONTACT, b.contact);
    assert |IfKey(b.hasKey, b.key)| <= 35 by { WidthKey(b.hasKey, b.key); }
  }

  lemma Width16(f: field, v: u16)
    ensures |If16(f, v)| <= 3
  {
  }

  lemma Width32(f: field, v: u32)
    ensures |If32(f, v)| <= 5
  {
  }

  lemma WidthText(f: field, s: bytes)
    ensures |IfText(f, s)| <= MAX_STR + 3
  {
  }

  lemma WidthKey(has: bool, key: bytes)
    requires |key| == KEY_LEN
    ensures |IfKey(has, key)| <= 35
  {
  }

  // ----- parsing -----

  function KindOf(pkt: bytes): Option<byte> {
    if |pkt| < HDR || |pkt| > MAX_PACKET || pkt[..4] != MAGIC then None
    else if pkt[4] != ANNOUNCE && pkt[4] != PROBE then None
    else Some(pkt[4])
  }

  function Set16(s: Small, f: field, v: u16): Small {
    if f == F_WIRE then s.(wire := v)
    else if f == F_MAJOR then s.(major := v)
    else if f == F_MINOR then s.(minor := v)
    else if f == F_PORT then s.(port := v)
    else if f == F_PLAYERS then s.(players := v)
    else if f == F_CAPACITY then s.(capacity := v)
    else s
  }

  function Set32(l: Large, f: field, v: u32): Large {
    if f == F_GAME then l.(game := v)
    else if f == F_MODES then l.(modes := v)
    else if f == F_FLAGS then l.(flags := v)
    else if f == F_INSTANCE then l.(instance := v)
    else l
  }

  // take_str: the bytes and a NUL, whatever lay behind them left in place.
  function Copied(dst: bytes, src: bytes): Option<bytes> {
    if |src| + 1 > |dst| then None else Some(src + [0] + dst[|src| + 1..])
  }

  function SetBytes(b: Beacon, f: field, data: bytes): Option<Beacon> {
    if f == F_NAME then
      match Copied(b.name, data)
      case None => None
      case Some(s) => Some(b.(name := s))
    else if f == F_CONTACT then
      match Copied(b.contact, data)
      case None => None
      case Some(s) => Some(b.(contact := s))
    else if f == F_KEY then
      if |data| != KEY_LEN then None else Some(b.(key := data, hasKey := true))
    else Some(b)
  }

  // One field at the front of d: the beacon with it taken in, and its length.
  function Take(b: Beacon, d: bytes): (r: Option<(Beacon, nat)>)
    requires d != []
    ensures r.Some? ==> 0 < r.value.1 <= |d|
  {
    var f, wire, rest := FieldOf(d[0]), WireOf(d[0]), d[1..];
    var n := Extent(rest, wire);
    if n == -1 then None
    else if wire == WBYTES then
      match SetBytes(b, f, Payload(rest))
      case None => None
      case Some(b') => Some((b', n + 1))
    else if wire == W16 then Some((b.(small := Set16(b.small, f, Get16(rest))), n + 1))
    else if wire == W32 then Some((b.(large := Set32(b.large, f, Get32(rest))), n + 1))
    else Some((b, n + 1))
  }

  function Body(b: Beacon, d: bytes): Option<Beacon>
    decreases |d|
  {
    if d == [] then Some(b)
    else
      match Take(b, d)
      case None => None
      case Some((b', n)) => Body(b', d[n..])
  }

  function Parsed(pkt: bytes): Option<Beacon> {
    if KindOf(pkt) != Some(ANNOUNCE) then None else Body(Blank(), pkt[HDR..])
  }

  // ----- fields at the front -----

  // d is one field and nothing more.
  ghost predicate OneField(d: bytes) {
    d != [] && Extent(d[1..], WireOf(d[0])) == |d| - 1
  }

  // What follows a field does not change what is read from it.
  lemma TakeStable(b: Beacon, d: bytes, rest: bytes)
    requires OneField(d)
    ensures Take(b, d + rest) == Take(b, d)
    ensures Take(b, d).Some? ==> Take(b, d).value.1 == |d|
  {
    hide SetBytes, Set16, Set32, Extent, Get16, Get32;
    assert (d + rest)[1..] == d[1..] + rest;
    ExtentStable(d[1..], rest, WireOf(d[0]));
    ValuesStable(d[1..], rest, WireOf(d[0]));
  }

  lemma ValuesStable(d: bytes, rest: bytes, wire: nat)
    requires Extent(d, wire) != -1
    ensures wire == WBYTES ==> Extent(d + rest, wire) == Extent(d, wire) && Payload(d + rest) == Payload(d)
    ensures wire == W16 ==> |d| >= 2 && Get16(d + rest) == Get16(d)
    ensures wire == W32 ==> |d| >= 4 && Get32(d + rest) == Get32(d)
  {
    ExtentStable(d, rest, wire);
    if wire == W32 {
      assert (d + rest)[0] == d[0] && (d + rest)[1] == d[1] && (d + rest)[2] == d[2] && (d + rest)[3] == d[3];
    }
  }

  // Reading a field and then the rest.
  lemma BodyStep(b: Beacon, d: bytes, rest: bytes)
    requires OneField(d)
    ensures Body(b, d + rest) == if Take(b, d).None? then None else Body(Take(b, d).value.0, rest)
  {
    hide Take;
    TakeStable(b, d, rest);
    assert (d + rest)[|d|..] == rest;
  }

  // ----- unknown fields -----

  predicate Known(f: field, wire: nat) {
    || (wire == WBYTES && (f == F_NAME || f == F_CONTACT || f == F_KEY))
    || (wire == W16 && F_WIRE <= f <= F_CAPACITY)
    || (wire == W32 && (f == F_GAME || f == F_MODES || f == F_FLAGS || f == F_INSTANCE))
  }

  // A whole number of fields.
  ghost predicate Run(d: bytes)
    decreases |d|
  {
    d == [] || exists n :: 0 < n <= |d| && OneField(d[..n]) && Run(d[n..])
  }

  lemma UnknownIgnored(b: Beacon, u: bytes)
    requires OneField(u) && !Known(FieldOf(u[0]), WireOf(u[0]))
    ensures Take(b, u) == Some((b, |u|))
  {
    hide Extent;
  }

  lemma {:induction false} InsertedIn(b: Beacon, x: bytes, u: bytes, y: bytes)
    requires Run(x) && OneField(u) && !Known(FieldOf(u[0]), WireOf(u[0]))
    ensures Body(b, x + u + y) == Body(b, x + y)
    decreases |x|
  {
    hide Take, Known, OneField, Body;
    if x == [] {
      assert x + u + y == u + y && x + y == y;
      UnknownIgnored(b, u);
      BodyStep(b, u, y);
    } else {
      var n :| 0 < n <= |x| && OneField(x[..n]) && Run(x[n..]);
      var d, tail := x[..n], x[n..];
      assert x + u + y == d + (tail + u + y) && x + y == d + (tail + y);
      BodyStep(b, d, tail + u + y);
      BodyStep(b, d, tail + y);
      if Take(b, d).Some? {
        InsertedIn(Take(b, d).value.0, tail, u, y);
      }
    }
  }

  // Any well-formed field this reader does not know, at any field boundary, leaves the
  // parse as it was, as long as the packet stays within its limit.
  lemma UnknownFieldSkipped(hdr: bytes, x: bytes, u: bytes, y: bytes)
    requires |hdr| == HDR && Run(x) && OneField(u) && !Known(FieldOf(u[0]), WireOf(u[0]))
    requires |hdr + x + u + y| <= MAX_PACKET
    ensures Parsed(hdr + x + u + y) == Parsed(hdr + x + y)
  {
    hide Body, Take, Run, OneField, Known;
    assert (hdr + x + u + y)[..4] == (hdr + x + y)[..4] == hdr[..4];
    assert (hdr + x + u + y)[HDR..] == x + u + y && (hdr + x + y)[HDR..] == x + y;
    InsertedIn(Blank(), x, u, y);
  }

  // ----- parsing what was built -----

  lemma Field16Taken(b: Beacon, f: field, v: u16)
    ensures OneField(Field16(f, v)) && Take(b, Field16(f, v)) == Some((b.(small := Set16(b.small, f, v)), 3))
  {
    TagSplits(f, W16);
    Back16(v, []);
    assert Field16(f, v)[1..] == Le16(v) == Le16(v) + [];
  }

  lemma Field32Taken(b: Beacon, f: field, v: u32)
    ensures OneField(Field32(f, v)) && Take(b, Field32(f, v)) == Some((b.(large := Set32(b.large, f, v)), 5))
  {
    hide Le32, Get32;
    TagSplits(f, W32);
    Back32(v, []);
    assert Field32(f, v)[1..] == Le32(v) == Le32(v) + [];
  }

  lemma FieldBytesTaken(b: Beacon, f: field, data: bytes)
    requires |data| < 0x1_0000
    ensures OneField(FieldBytes(f, data))
    ensures Take(b, FieldBytes(f, data)) ==
            if SetBytes(b, f, data).None? then None else Some((SetBytes(b, f, data).value, 3 + |data|))
  {
    hide Le16, Get16, SetBytes, Extent, Payload, Tag, FieldOf, WireOf;
    var d := Le16(|data|) + data;
    TagSplits(f, WBYTES);
    PayloadBack(data, []);
    assert d + [] == d;
    assert FieldBytes(f, data)[0] == Tag(f, WBYTES) && FieldBytes(f, data)[1..] == d;
  }

  // The effect of each piece on what has been read so far.
  function After16(b: Beacon, f: field, v: u16): Beacon {
    if v == 0 then b else b.(small := Set16(b.small, f, v))
  }

  function After32(b: Beacon, f: field, v: u32): Beacon {
    if v == 0 then b else b.(large := Set32(b.large, f, v))
  }

  lemma Piece16(b: Beacon, f: field, v: u16, rest: bytes)
    ensures Body(b, If16(f, v) + rest) == Body(After16(b, f, v), rest)
  {
    hide Body, Take, Field16, Set16;
    if v == 0 {
      assert If16(f, v) + rest == rest;
    } else {
      Field16Taken(b, f, v);
      BodyStep(b, Field16(f, v), rest);
    }
  }

  lemma Piece32(b: Beacon, f: field, v: u32, rest: bytes)
    ensures Body(b, If32(f, v) + rest) == Body(After32(b, f, v), rest)
  {
    hide Body, Take, Field32, Set32;
    if v == 0 {
      assert If32(f, v) + rest == rest;
    } else {
      Field32Taken(b, f, v);
      BodyStep(b, Field32(f, v), rest);
    }
  }

  // The text kept, and nothing past it; a text with no end is not sent.
  function Kept(s: bytes): bytes
    requires |s| == MAX_STR + 1
  {
    if |Text(s)| <= MAX_STR then Text(s) + Zeros(MAX_STR + 1 - |Text(s)|) else Zeros(MAX_STR + 1)
  }

  lemma ZerosTail(n: nat, k: nat)
    requires k <= n
    ensures Zeros(n)[k..] == Zeros(n - k) && forall i :: 0 <= i < n ==> Zeros(n)[i] == 0
  {
    if n > k {
      ZerosTail(n - 1, k);
      assert Zeros(n)[k..] == Zeros(n - 1)[k..] + [0];
    } else {
      if n > 0 { ZerosTail(n - 1, n - 1); }
    }
  }

  lemma CopiedFresh(s: bytes)
    requires |s| == MAX_STR + 1 && |Text(s)| <= MAX_STR
    ensures Copied(Zeros(MAX_STR + 1), Text(s)) == Some(Kept(s))
  {
    hide Text, Zeros;
    var t := Text(s);
    ZerosTail(MAX_STR + 1, |t|);
    ZerosTail(MAX_STR + 1, |t| + 1);
    assert Zeros(MAX_STR + 1 - |t|) == [0] + Zeros(MAX_STR - |t|) by {
      assert Zeros(MAX_STR + 1)[|t|..] == [Zeros(MAX_STR + 1)[|t|]] + Zeros(MAX_STR + 1)[|t| + 1..];
    }
    assert t + [0] + Zeros(MAX_STR - |t|) == t + ([0] + Zeros(MAX_STR - |t|));
  }

  lemma PieceName(b: Beacon, s: bytes, rest: bytes)
    requires |s| == MAX_STR + 1 && b.name == Zeros(MAX_STR + 1)
    ensures Body(b, IfText(F_NAME, s) + rest) == Body(b.(name := Kept(s)), rest)
  {
    hide Body, Take, FieldBytes, Zeros, Text, Copied, Kept;
    NoText(s);
    if 0 < |Text(s)| <= MAX_STR {
      CopiedFresh(s);
      FieldBytesTaken(b, F_NAME, Text(s));
      BodyStep(b, FieldBytes(F_NAME, Text(s)), rest);
    } else {
      assert IfText(F_NAME, s) + rest == rest;
    }
  }

  lemma NoText(s: bytes)
    requires |s| == MAX_STR + 1
    ensures !(0 < |Text(s)| <= MAX_STR) ==> Kept(s) == Zeros(MAX_STR + 1)
  {
  }

  lemma PieceContact(b: Beacon, s: bytes, rest: bytes)
    requires |s| == MAX_STR + 1 && b.contact == Zeros(MAX_STR + 1)
    ensures Body(b, IfText(F_CONTACT, s) + rest) == Body(b.(contact := Kept(s)), rest)
  {
    hide Body, Take, FieldBytes, Zeros, Text, Copied, Kept;
    NoText(s);
    if 0 < |Text(s)| <= MAX_STR {
      CopiedFresh(s);
      FieldBytesTaken(b, F_CONTACT, Text(s));
      BodyStep(b, FieldBytes(F_CONTACT, Text(s)), rest);
    } else {
      assert IfText(F_CONTACT, s) + rest == rest;
    }
  }

  lemma PieceKey(b: Beacon, has: bool, key: bytes)
    requires |key| == KEY_LEN
    ensures Body(b, IfKey(has, key)) == Some(if has then b.(key := key, hasKey := true) else b)
  {
    hide Take, FieldBytes;
    if has {
      FieldBytesTaken(b, F_KEY, key);
      BodyStep(b, FieldBytes(F_KEY, key), []);
      assert FieldBytes(F_KEY, key) + [] == FieldBytes(F_KEY, key);
    }
  }

  // A beacon as it arrives: text cleaned past its end, no key unless one was set.
  function Cleaned(b: Beacon): Beacon
    requires BeaconOk(b)
  {
    b.(name := Kept(b.name), contact := Kept(b.contact), key := if b.hasKey then b.key else Zeros(KEY_LEN))
  }

  // What has been read after the numbers.
  lemma NumbersParsed(b: Beacon, rest: bytes)
    requires BeaconOk(b)
    ensures Body(Blank(), Numbers(b.large, b.small, rest)) == Body(Blank().(small := b.small, large := b.large), rest)
  {
    hide Body, If16, If32, Zeros;
    var l, s := b.large, b.small;
    var r9 := If32(F_INSTANCE, l.instance) + rest;
    var r8 := If32(F_FLAGS, l.flags) + r9;
    var r7 := If32(F_MODES, l.modes) + r8;
    var r6 := If16(F_CAPACITY, s.capacity) + r7;
    var r5 := If16(F_PLAYERS, s.players) + r6;
    var r4 := If16(F_PORT, s.port) + r5;
    var r3 := If16(F_MINOR, s.minor) + r4;
    var r2 := If16(F_MAJOR, s.major) + r3;
    var r1 := If16(F_WIRE, s.wire) + r2;
    var b0 := Blank();
    Piece32(b0, F_GAME, l.game, r1);
    var b1 := b0.(large := Large(l.game, 0, 0, 0));
    Piece16(b1, F_WIRE, s.wire, r2);
    var b2 := b1.(small := Small(s.wire, 0, 0, 0, 0, 0));
    Piece16(b2, F_MAJOR, s.major, r3);
    var b3 := b1.(small := Small(s.wire, s.major, 0, 0, 0, 0));
    Piece16(b3, F_MINOR, s.minor, r4);
    var b4 := b1.(small := Small(s.wire, s.major, s.minor, 0, 0, 0));
    Piece16(b4, F_PORT, s.port, r5);
    var b5 := b1.(small := Small(s.wire, s.major, s.minor, s.port, 0, 0));
    Piece16(b5, F_PLAYERS, s.players, r6);
    var b6 := b1.(small := Small(s.wire, s.major, s.minor, s.port, s.players, 0));
    Piece16(b6, F_CAPACITY, s.capacity, r7);
    var b7 := b1.(small := s);
    Piece32(b7, F_MODES, l.modes, r8);
    var b8 := b7.(large := Large(l.game, l.modes, 0, 0));
    Piece32(b8, F_FLAGS, l.flags, r9);
    var b9 := b7.(large := Large(l.game, l.modes, l.flags, 0));
    Piece32(b9, F_INSTANCE, l.instance, rest);
  }

  // Only an announcement behind the magic number, of a size that can be one, is read.
  lemma ForeignIsRefused(pkt: bytes)
    requires Parsed(pkt).Some?
    ensures HDR <= |pkt| <= MAX_PACKET && pkt[..4] == MAGIC && pkt[4] == ANNOUNCE
  {
    hide Body;
  }

  // A text is taken up to 64 bytes and a key of exactly 32; nothing is too long for a field
  // that is not kept.
  lemma FieldTakenIff(b: Beacon, f: field, data: bytes)
    requires BeaconOk(b)
    ensures SetBytes(b, f, data).Some? <==>
            (f == F_NAME || f == F_CONTACT ==> |data| <= 64) && (f == F_KEY ==> |data| == 32)
  {
  }

  // A beacon is built exactly when the buffer holds it.
  lemma BuiltIff(b: Beacon, outlen: nat)
    requires BeaconOk(b)
    ensures Built(b, outlen) == if |Packet(b)| <= outlen then Some(Packet(b)) else None
  {
    PacketBounded(b);
  }

  // Main result: parsing undoes building, up to bytes past the end of a text and an unset key.
  lemma BuildParses(b: Beacon)
    requires BeaconOk(b)
    ensures Parsed(Packet(b)) == Some(Cleaned(b))
  {
    hide Body, Numbers, IfText, IfKey, Zeros, Kept;
    PacketBounded(b);
    var pkt, rest2 := Packet(b), IfKey(b.hasKey, b.key);
    var rest1 := IfText(F_CONTACT, b.contact) + rest2;
    assert pkt[..4] == MAGIC && pkt[4] == ANNOUNCE && pkt[HDR..] == Fields(b);
    NumbersParsed(b, IfText(F_NAME, b.name) + rest1);
    var b1 := Blank().(small := b.small, large := b.large);
    PieceName(b1, b.name, rest1);
    var b2 := b1.(name := Kept(b.name));
    PieceContact(b2, b.contact, rest2);
    PieceKey(b2.(contact := Kept(b.contact)), b.hasKey, b.key);
  }

  // ----- in place -----

  // Where the NUL is, or the size of the array.
  method BoundedLen(s: bytes) returns (n: nat)
    ensures n == TextLen(s, |s|)
  {
    n := 0;
    while n < |s| && s[n] != 0
      invariant n <= |s| && forall i :: 0 <= i < n ==> s[i] != 0
    {
      n := n + 1;
    }
  }

  // A buffer filled to pos with these bytes, or -1 once they no longer fit.
  ghost predicate Written(out: array<byte>, pos: int, cap: nat, sofar: bytes)
    reads out
  {
    cap <= out.Length && if |sofar| <= cap then pos == |sofar| && out[..pos] == sofar else pos == -1
  }

  // Append a field, or pass on that an earlier one did not fit.
  method Append(out: array<byte>, pos: int, cap: nat, data: bytes, ghost sofar: bytes) returns (p: int)
    requires Written(out, pos, cap, sofar)
    modifies out
    ensures Written(out, p, cap, sofar + data)
  {
    if pos < 0 || pos + |data| > cap { return -1; }
    p := pos;
    for i := 0 to |data|
      invariant p == pos + i
      invariant forall j :: 0 <= j < pos ==> out[j] == sofar[j]
      invariant forall j :: 0 <= j < i ==> out[pos + j] == data[j]
    {
      out[p] := data[i];
      p := p + 1;
    }
    assert out[..p] == sofar + data;
  }

  method Build(out: array<byte>, b: Beacon) returns (n: int)
    requires BeaconOk(b)
    modifies out
    ensures match Built(b, out.Length)
            case None => n == -1
            case Some(pkt) => n == |pkt| && out[..n] == pkt
  {
    hide If16, If32, IfText, IfKey;
    var cap := Min(out.Length, MAX_PACKET);
    ghost var s0 := MAGIC + [ANNOUNCE];
    if cap < HDR { return -1; }
    n := Append(out, 0, cap, MAGIC + [ANNOUNCE], []);
    assert [] + s0 == s0;
    n := BuildNumbers(out, n, cap, b, s0);
    ghost var s1 := s0 + Numbers(b.large, b.small, []);
    n := Append(out, n, cap, IfText(F_NAME, b.name), s1);
    n := Append(out, n, cap, IfText(F_CONTACT, b.contact), s1 + IfText(F_NAME, b.name));
    n := Append(out, n, cap, IfKey(b.hasKey, b.key), s1 + IfText(F_NAME, b.name) + IfText(F_CONTACT, b.contact));
    NumbersThen(b.large, b.small, IfText(F_NAME, b.name) + (IfText(F_CONTACT, b.contact) + IfKey(b.hasKey, b.key)));
    assert s1 + IfText(F_NAME, b.name) + IfText(F_CONTACT, b.contact) + IfKey(b.hasKey, b.key) == Packet(b);
  }

  lemma NumbersThen(l: Large, s: Small, rest: bytes)
    ensures Numbers(l, s, rest) == Numbers(l, s, []) + rest
  {
    hide If16, If32;
  }

  method BuildNumbers(out: array<byte>, pos: int, cap: nat, b: Beacon, ghost s0: bytes) returns (n: int)
    requires Written(out, pos, cap, s0)
    modifies out
    ensures Written(out, n, cap, s0 + Numbers(b.large, b.small, []))
  {
    hide If16, If32, Written;
    var l, s := b.large, b.small;
    ghost var t := s0;
    n := Append(out, pos, cap, If32(F_GAME, l.game), t);
    t := t + If32(F_GAME, l.game);
    n := Append(out, n, cap, If16(F_WIRE, s.wire), t);
    t := t + If16(F_WIRE, s.wire);
    n := Append(out, n, cap, If16(F_MAJOR, s.major), t);
    t := t + If16(F_MAJOR, s.major);
    n := Append(out, n, cap, If16(F_MINOR, s.minor), t);
    t := t + If16(F_MINOR, s.minor);
    n := Append(out, n, cap, If16(F_PORT, s.port), t);
    t := t + If16(F_PORT, s.port);
    n := Append(out, n, cap, If16(F_PLAYERS, s.players), t);
    t := t + If16(F_PLAYERS, s.players);
    n := Append(out, n, cap, If16(F_CAPACITY, s.capacity), t);
    t := t + If16(F_CAPACITY, s.capacity);
    n := Append(out, n, cap, If32(F_MODES, l.modes), t);
    t := t + If32(F_MODES, l.modes);
    n := Append(out, n, cap, If32(F_FLAGS, l.flags), t);
    t := t + If32(F_FLAGS, l.flags);
    n := Append(out, n, cap, If32(F_INSTANCE, l.instance), t);
    assert t + If32(F_INSTANCE, l.instance) == s0 + Numbers(l, s, []);
  }

  method Parse(pkt: bytes) returns (r: Option<Beacon>)
    ensures r == Parsed(pkt)
  {
    hide Take;
    if KindOf(pkt) != Some(ANNOUNCE) { return None; }
    var b, pos := Blank(), HDR;
    while pos < |pkt|
      invariant HDR <= pos <= |pkt| && Body(b, pkt[pos..]) == Body(Blank(), pkt[HDR..])
    {
      match Take(b, pkt[pos..])
      case None => return None;
      case Some((b', n)) =>
        assert pkt[pos..][n..] == pkt[pos + n..];
        b, pos := b', pos + n;
    }
    r := Some(b);
  }
}
