// Splitting a byte stream back into messages, each behind a two-byte length, whatever
// pieces the stream arrives in.
module AuthFramer {
  import opened Bytes

  const MAX_FRAME := 0xffff

  // ----- the stream, parsed at once -----

  datatype First = Short | Bad | Full(msg: bytes, n: nat)

  function Size(s: bytes): nat
    requires |s| >= 2
  {
    s[0] as int + s[1] as int * 0x100
  }

  // The message at the front of the stream: not all there, impossible, or whole.
  function FirstOf(s: bytes): (r: First)
    ensures r.Full? ==> 2 < r.n <= |s| && |r.msg| == r.n - 2
  {
    if |s| < 2 then Short
    else if Size(s) == 0 then Bad
    else if |s| < Size(s) + 2 then Short
    else Full(s[2..Size(s) + 2], Size(s) + 2)
  }

  // Every whole message of the stream, up to a bad length.
  function Messages(s: bytes): seq<bytes>
    decreases |s|
  {
    var f := FirstOf(s);
    if f.Full? then [f.msg] + Messages(s[f.n..]) else []
  }

  // ----- framing -----

  predicate Framable(m: bytes) {
    0 < |m| <= MAX_FRAME
  }

  function Frame(m: bytes): bytes
    requires Framable(m)
  {
    [|m| % 0x100, |m| / 0x100] + m
  }

  // What nc_auth_frame returns: the frame, or an error when it does not fit.
  function FrameInto(m: bytes, room: nat): (r: (bool, bytes)) {
    if !Framable(m) || room < |m| + 2 then (false, []) else (true, Frame(m))
  }

  ghost predicate AllFramable(ms: seq<bytes>) {
    forall i :: 0 <= i < |ms| ==> Framable(ms[i])
  }

  ghost function FrameAll(ms: seq<bytes>): bytes
    requires AllFramable(ms)
    decreases |ms|
  {
    if ms == [] then [] else Frame(ms[0]) + FrameAll(ms[1..])
  }

  lemma FrontParses(m: bytes, rest: bytes)
    requires Framable(m)
    ensures FirstOf(Frame(m) + rest) == Full(m, |m| + 2) && (Frame(m) + rest)[|m| + 2..] == rest
  {
    var s := Frame(m) + rest;
    assert Size(s) == |m|;
    assert s[2..|m| + 2] == m;
  }

  lemma ParsedFront(s: bytes)
    requires FirstOf(s).Full?
    ensures Framable(FirstOf(s).msg) && Frame(FirstOf(s).msg) + s[FirstOf(s).n..] == s
  {
    var f := FirstOf(s);
    assert s == s[..2] + s[2..f.n] + s[f.n..];
    assert Frame(f.msg)[..2] == s[..2];
  }

  // A message is framed exactly when some bytes that fit the room would be read as it, and
  // then those are the only ones; otherwise it is refused.
  lemma FrameIntoIff(m: bytes, room: nat)
    ensures var (ok, s) := FrameInto(m, room); ok ==> |s| <= room && FirstOf(s) == Full(m, |s|)
    ensures forall s: bytes :: |s| <= room && FirstOf(s) == Full(m, |s|) ==> FrameInto(m, room) == (true, s)
  {
    if FrameInto(m, room).0 {
      FrontParses(m, []);
      assert Frame(m) + [] == Frame(m);
    }
    forall s: bytes | |s| <= room && FirstOf(s) == Full(m, |s|) ensures FrameInto(m, room) == (true, s) {
      ParsedFront(s);
      assert s[|s|..] == [] && Frame(m) + [] == Frame(m);
    }
  }

  // Parsing undoes framing, and goes on with whatever follows.
  lemma {:induction false} FramedParse(ms: seq<bytes>, rest: bytes)
    requires AllFramable(ms)
    ensures Messages(FrameAll(ms) + rest) == ms + Messages(rest)
    decreases |ms|
  {
    hide Frame, FirstOf;
    if ms == [] {
      assert FrameAll(ms) + rest == rest;
    } else {
      var tail := FrameAll(ms[1..]) + rest;
      assert FrameAll(ms) + rest == Frame(ms[0]) + tail;
      FrontParses(ms[0], tail);
      FramedParse(ms[1..], rest);
      assert [ms[0]] + (ms[1..] + Messages(rest)) == ms + Messages(rest);
    }
  }

  lemma {:induction false} FrameAllSnoc(ms: seq<bytes>, m: bytes)
    requires AllFramable(ms) && Framable(m)
    ensures AllFramable(ms + [m]) && FrameAll(ms + [m]) == FrameAll(ms) + Frame(m)
    decreases |ms|
  {
    hide Frame, Framable;
    if ms == [] {
      assert ms + [m] == [m] && [m][1..] == [];
      assert FrameAll([m]) == Frame(m) + FrameAll([]) == Frame(m);
    } else {
      assert (ms + [m])[1..] == ms[1..] + [m] && (ms + [m])[0] == ms[0];
      FrameAllSnoc(ms[1..], m);
    }
  }

  // ----- the framer -----

  // The buffer's size, the bytes in it, and how many of them the last message used up.
  datatype Framer = Framer(cap: nat, held: bytes, done: nat)

  ghost predicate FramerOk(f: Framer) {
    f.done <= |f.held| <= f.cap
  }

  function Waiting(f: Framer): bytes
    requires f.done <= |f.held|
  {
    f.held[f.done..]
  }

  function Push(f: Framer, data: bytes): (Framer, bool)
    requires FramerOk(f)
  {
    var f1 := Framer(f.cap, Waiting(f), 0);
    if |data| > f.cap - |f1.held| then (f1, false) else (f1.(held := f1.held + data), true)
  }

  // The next message stays in the buffer until the following call.
  function Next(f: Framer): (Framer, First)
    requires FramerOk(f)
  {
    var f1 := Framer(f.cap, Waiting(f), 0);
    var r := FirstOf(f1.held);
    (if r.Full? then f1.(done := r.n) else f1, r)
  }

  // Bytes are taken, behind those waiting, exactly when there is room for all of them.
  lemma PushIff(f: Framer, data: bytes)
    requires FramerOk(f)
    ensures var (f', ok) := Push(f, data);
            && FramerOk(f') && f'.cap == f.cap && (ok <==> |Waiting(f)| + |data| <= f.cap)
            && Waiting(f') == Waiting(f) + if ok then data else []
  {
    assert Waiting(f) + [] == Waiting(f);
  }

  // A buffer for the longest frame never fills up with less than a whole message, so one more
  // byte can always be pushed when there is nothing to hand out.
  lemma NeverStuck(f: Framer)
    requires FramerOk(f) && f.cap >= MAX_FRAME + 2 && Next(f).1.Short?
    ensures |Waiting(f)| < f.cap
  {
  }

  // ----- any interleaving of pushes and nexts -----

  datatype Op = Pushes(data: bytes) | Nexts

  // The framer, all bytes pushed successfully, and all messages handed out.
  datatype Run = Run(f: Framer, fed: bytes, got: seq<bytes>)

  function Step(r: Run, op: Op): (r': Run)
    requires FramerOk(r.f)
    ensures FramerOk(r'.f)
  {
    match op
    case Pushes(data) =>
      var (f, ok) := Push(r.f, data);
      Run(f, if ok then r.fed + data else r.fed, r.got)
    case Nexts =>
      var (f, out) := Next(r.f);
      Run(f, r.fed, if out.Full? then r.got + [out.msg] else r.got)
  }

  function Steps(r: Run, ops: seq<Op>): (r': Run)
    requires FramerOk(r.f)
    ensures FramerOk(r'.f)
    decreases |ops|
  {
    if ops == [] then r else Steps(Step(r, ops[0]), ops[1..])
  }

  // What was pushed is what was handed out, framed, followed by what is waiting.
  ghost predicate InStep(r: Run) {
    FramerOk(r.f) && AllFramable(r.got) && r.fed == FrameAll(r.got) + Waiting(r.f)
  }

  lemma StepInStep(r: Run, op: Op)
    requires InStep(r)
    ensures InStep(Step(r, op))
  {
    hide Frame, Framable, FrameAll, FirstOf;
    match op
    case Pushes(data) =>
      assert FrameAll(r.got) + (Waiting(r.f) + data) == FrameAll(r.got) + Waiting(r.f) + data;
    case Nexts =>
      var s := Waiting(r.f);
      var out := FirstOf(s);
      if out.Full? {
        ParsedFront(s);
        FrameAllSnoc(r.got, out.msg);
        assert FrameAll(r.got) + Frame(out.msg) + s[out.n..] == FrameAll(r.got) + (Frame(out.msg) + s[out.n..]);
      }
  }

  lemma {:induction false} StepsInStep(r: Run, ops: seq<Op>)
    requires InStep(r)
    ensures InStep(Steps(r, ops))
    decreases |ops|
  {
    hide Step, InStep;
    if ops != [] {
      assert FramerOk(r.f) by { InStepOk(r); }
      StepInStep(r, ops[0]);
      StepsInStep(Step(r, ops[0]), ops[1..]);
    }
  }

  lemma InStepOk(r: Run)
    requires InStep(r)
    ensures FramerOk(r.f)
  {
  }

  // Main result: however the stream is cut up and whenever messages are asked for, the
  // messages handed out are those of parsing the whole stream at once, less those waiting;
  // and once the framer has nothing to hand out they are exactly those.
  lemma ChunkingIndependence(cap: nat, ops: seq<Op>)
    ensures var r := Steps(Run(Framer(cap, [], 0), [], []), ops);
            && Messages(r.fed) == r.got + Messages(Waiting(r.f))
            && (!Next(r.f).1.Full? ==> Messages(r.fed) == r.got)
  {
    hide Frame, FirstOf, Framable, FrameAll;
    var r0 := Run(Framer(cap, [], 0), [], []);
    assert InStep(r0) by { NoneFramed(); }
    StepsInStep(r0, ops);
    var r := Steps(r0, ops);
    FramedParse(r.got, Waiting(r.f));
    var s := Waiting(r.f);
    assert !FirstOf(s).Full? ==> Messages(s) == [];
  }

  lemma NoneFramed()
    ensures AllFramable([]) && FrameAll([]) == []
  {
  }

  // Round trip: framing a list of messages and pushing the result in any pieces hands the
  // same list back, no more and no less, once nothing further comes.
  lemma FramedComesBack(cap: nat, ms: seq<bytes>, ops: seq<Op>)
    requires AllFramable(ms)
    ensures var r := Steps(Run(Framer(cap, [], 0), [], []), ops);
            r.fed == FrameAll(ms) && !Next(r.f).1.Full? ==> r.got == ms
  {
    hide Framable, FrameAll, Steps, Next;
    ChunkingIndependence(cap, ops);
    FramedParse(ms, []);
    assert FrameAll(ms) + [] == FrameAll(ms);
    assert Messages([]) == [];
  }

  // ----- the object -----

  class Buffer {
    const buf: array<byte>
    var len: nat
    var done: nat

    ghost predicate Valid()
      reads this, buf
    {
      done <= len <= buf.Length
    }

    ghost function Abs(): Framer
      requires Valid()
      reads this, buf
    {
      Framer(buf.Length, buf[..len], done)
    }

    constructor (cap: nat)
      ensures Valid() && fresh(buf) && Abs() == Framer(cap, [], 0)
    {
      buf := new byte[cap](_ => 0);
      len, done := 0, 0;
    }

    // Drop what the last message used, moving the rest down.
    method Compact()
      requires Valid()
      modifies this, buf
      ensures Valid() && Abs() == Framer(buf.Length, Waiting(old(Abs())), 0)
    {
      if done > 0 {
        var n := len - done;
        var i := 0;
        while i < n
          invariant i <= n && unchanged(this)
          invariant forall j :: 0 <= j < i ==> buf[j] == old(buf[done + j])
          invariant forall j :: i <= j < buf.Length ==> buf[j] == old(buf[j])
        {
          buf[i] := buf[done + i];
          i := i + 1;
        }
        len, done := n, 0;
      }
      assert buf[..len] == old(buf[done..len]);
    }

    method PushBytes(data: bytes) returns (ok: bool)
      requires Valid()
      modifies this, buf
      ensures Valid() && (Abs(), ok) == Push(old(Abs()), data)
    {
      Compact();
      if |data| > buf.Length - len { return false; }
      ghost var was := buf[..len];
      var i := 0;
      while i < |data|
        invariant i <= |data| && len + |data| <= buf.Length && done == 0 && len == |was|
        invariant forall j :: 0 <= j < len ==> buf[j] == was[j]
        invariant forall j :: 0 <= j < i ==> buf[len + j] == data[j]
        modifies buf
      {
        buf[len + i] := data[i];
        i := i + 1;
      }
      assert buf[..len + |data|] == was + data;
      len := len + |data|;
      ok := true;
    }

    // The message handed out is in the buffer, behind its length, until the next call.
    method NextMessage() returns (r: First)
      requires Valid()
      modifies this, buf
      ensures Valid() && (Abs(), r) == Next(old(Abs()))
      ensures r.Full? ==> buf[2..done] == r.msg
    {
      Compact();
      if len < 2 { return Short; }
      var need := buf[0] as int + buf[1] as int * 0x100;
      if need == 0 { return Bad; }
      if len < need + 2 { return Short; }
      assert buf[..len][2..need + 2] == buf[2..need + 2];
      done := need + 2;
      r := Full(buf[2..need + 2], need + 2);
    }
  }
}
