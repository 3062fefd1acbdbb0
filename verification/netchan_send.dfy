// The sending half of a netchan channel: the ring of outgoing messages, each in its own
// pool buffer until it is acknowledged, and the count of bytes in flight.
module NetchanSend {
  import opened Bytes
  import opened NetchanPool
  import opened NetchanFrag
  import opened NetchanRecv

  const OUTGOING_SLOTS := 64
  const MAX_RT_MS := 1000
  const MAX_RT_ATTEMPTS := 5

  datatype OutMeta = OutMeta(seqno: u16, total: nat, sent: nat, active: bool, sentMs: u32, attempts: nat)
  type OutCell = Cell<OutMeta>

  // The ring, the number of the next message, and the bytes not yet acknowledged.
  datatype Out = Out(cells: seq<OutCell>, head: nat, tail: nat, seqno: u16, inFlight: u32)

  datatype Status = Opening | Open | Closing | Dead

  // What the flow control of a channel looks at.
  datatype Gate = Gate(reliable: bool, status: Status, window: u32)

  datatype Outcome = Written(n: nat) | Closed | TooBig | NoWindow | Again | NoMemory

  // An active slot lies in the ring, owns a buffer and is cut into the right number of pieces.
  ghost predicate SlotOk(o: Out, i: nat, fp: nat)
    requires fp > 0 && i < |o.cells|
  {
    var c := o.cells[i];
    && (c.buf != NOBUF <==> c.meta.active)
    && c.len <= MAX_MSG
    && (c.meta.active ==>
         && Ahead(i, o.head) < Ahead(o.tail, o.head)
         && 0 < c.len && c.meta.total == FragTotal(c.len, fp))
  }

  ghost predicate OutOk(o: Out, fp: nat)
    requires fp > 0
  {
    && |o.cells| == OUTGOING_SLOTS && o.head < OUTGOING_SLOTS && o.tail < OUTGOING_SLOTS
    && forall i :: 0 <= i < OUTGOING_SLOTS ==> SlotOk(o, i, fp)
  }

  // The bytes of the messages still in the ring.
  ghost function ActiveLen(cells: seq<OutCell>): nat {
    if cells == [] then 0
    else ActiveLen(cells[..|cells| - 1]) + LenOf(cells[|cells| - 1])
  }

  ghost function LenOf(c: OutCell): nat {
    if c.meta.active then c.len else 0
  }

  lemma {:induction false} ActiveLenUpdate(cells: seq<OutCell>, i: nat, c: OutCell)
    requires i < |cells|
    ensures ActiveLen(cells[i := c]) + LenOf(cells[i]) == ActiveLen(cells) + LenOf(c)
  {
    var n := |cells| - 1;
    if i < n {
      ActiveLenUpdate(cells[..n], i, c);
      assert cells[i := c][..n] == cells[..n][i := c];
    } else {
      assert cells[i := c][..n] == cells[..n];
    }
  }

  lemma {:induction false} ActiveLenBounded(cells: seq<OutCell>)
    requires forall i :: 0 <= i < |cells| ==> LenOf(cells[i]) <= MAX_MSG
    ensures ActiveLen(cells) <= |cells| * MAX_MSG
  {
    if cells != [] {
      ActiveLenBounded(cells[..|cells| - 1]);
    }
  }

  ghost predicate Accounted(o: Out) {
    o.inFlight == ActiveLen(o.cells)
  }

  lemma InFlightBounded(o: Out, fp: nat)
    requires fp > 0 && OutOk(o, fp)
    ensures ActiveLen(o.cells) <= OUTGOING_SLOTS * MAX_MSG
  {
    forall i | 0 <= i < |o.cells| ensures LenOf(o.cells[i]) <= MAX_MSG {
      assert SlotOk(o, i, fp);
    }
    ActiveLenBounded(o.cells);
  }

  // ----- writing -----

  function Write1(p: Pool, o: Out, g: Gate, fp: nat, data: bytes): (Pool, Out, Outcome)
    requires fp > 0 && o.tail < |o.cells|
  {
    var (p1, b) := Get(p);
    if g.status == Dead then (p, o, Closed)
    else if data == [] then (p, o, Written(0))
    else if |data| > MAX_MSG then (p, o, TooBig)
    else if g.reliable && g.status == Open && o.inFlight + |data| > g.window then (p, o, NoWindow)
    else if NextIx(o.tail) == o.head then (p, o, Again)
    else if b == NOBUF then (p, o, NoMemory)
    else Commit(p1, b, o, g, fp, data)
  }

  // The slot is filled and its number spent before the fragment count is known.
  function Commit(p: Pool, b: int, o: Out, g: Gate, fp: nat, data: bytes): (Pool, Out, Outcome)
    requires fp > 0 && o.tail < |o.cells| && 0 < |data| <= MAX_MSG
  {
    var p1, total, next := Write(p, b, 0, data), FragTotal(|data|, fp), Next16(o.seqno);
    if total > MAX_FRAGS then
      (Put(p1, b), o.(cells := o.cells[o.tail := Cell(NOBUF, 0, OutMeta(0, 0, 0, false, 0, 0))], seqno := next), TooBig)
    else
      (p1,
       Out(o.cells[o.tail := Cell(b, |data|, OutMeta(o.seqno, total, 0, true, 0, 0))], o.head, NextIx(o.tail), next,
           if g.reliable then Plus32(o.inFlight, |data|) else o.inFlight),
       Written(|data|))
  }

  lemma AppendOk(o: Out, c: OutCell, seqno: u16, inFlight: u32, fp: nat)
    requires fp > 0 && OutOk(o, fp) && NextIx(o.tail) != o.head
    requires c.buf != NOBUF && c.meta.active && 0 < c.len <= MAX_MSG && c.meta.total == FragTotal(c.len, fp)
    ensures OutOk(Out(o.cells[o.tail := c], o.head, NextIx(o.tail), seqno, inFlight), fp)
    ensures !o.cells[o.tail].meta.active && o.cells[o.tail].buf == NOBUF
  {
    hide FragTotal;
    var o' := Out(o.cells[o.tail := c], o.head, NextIx(o.tail), seqno, inFlight);
    assert SlotOk(o, o.tail, fp);
    forall i | 0 <= i < OUTGOING_SLOTS ensures SlotOk(o', i, fp) {
      assert SlotOk(o, i, fp);
    }
  }

  // The slot a committed write fills, and the ring it makes.
  function Filled(o: Out, b: int, fp: nat, data: bytes): OutCell
    requires fp > 0
  {
    Cell(b, |data|, OutMeta(o.seqno, FragTotal(|data|, fp), 0, true, 0, 0))
  }

  function Appended(o: Out, c: OutCell, g: Gate): Out
    requires o.tail < |o.cells| && c.len <= MAX_MSG
  {
    Out(o.cells[o.tail := c], o.head, NextIx(o.tail), Next16(o.seqno),
        if g.reliable then Plus32(o.inFlight, c.len) else o.inFlight)
  }

  predicate Took(out: Outcome) {
    out.Written? && out.n > 0
  }

  lemma WriteShape(p: Pool, o: Out, g: Gate, fp: nat, data: bytes)
    requires fp >= 64 && o.tail < |o.cells|
    ensures var (p', o', out) := Write1(p, o, g, fp, data);
            var (p1, b) := Get(p);
            if Took(out) then
              && 0 < out.n == |data| <= MAX_MSG && p.free != [] && NextIx(o.tail) != o.head
              && p' == Write(p1, b, 0, data) && o' == Appended(o, Filled(o, b, fp, data), g)
            else p' == p && o' == o
  {
    hide FragTotal, Write, Put;
    if 0 < |data| <= MAX_MSG {
      TotalBounded(|data|, fp);
    }
  }

  // A write either changes nothing or adds exactly this message at the end of the ring, cut
  // for fragments of this size.
  lemma WriteKept(p: Pool, o: Out, g: Gate, fp: nat, data: bytes, rest: multiset<int>)
    requires fp >= 64 && OutOk(o, fp) && Holds(p, Bufs(o.cells) + rest)
    ensures var (p', o', out) := Write1(p, o, g, fp, data);
            && OutOk(o', fp)
            && Kept(p, Bufs(o.cells) + rest, p', Bufs(o'.cells) + rest)
            && Spared(p, p', Bufs(o.cells) + rest)
            && (Took(out) ==>
                  && o' == Appended(o, Filled(o, Get(p).1, fp, data), g)
                  && View(p', Filled(o, Get(p).1, fp, data)) == data)
            && (!Took(out) ==> p' == p && o' == o)
  {
    hide FragTotal, Write1, Write, SlotOk, Get, Bufs;
    var held := Bufs(o.cells) + rest;
    var (p', o', out) := Write1(p, o, g, fp, data);
    WriteShape(p, o, g, fp, data);
    if Took(out) {
      GetFilled(p, held, data);
      var c := Filled(o, Get(p).1, fp, data);
      AppendOk(o, c, o'.seqno, o'.inFlight, fp);
      SlotTaken(o.cells, o.tail, c, rest);
    }
  }

  // A reliable channel counts every byte it still owes.
  lemma WriteAccounted(p: Pool, o: Out, g: Gate, fp: nat, data: bytes, rest: multiset<int>)
    requires fp >= 64 && OutOk(o, fp) && Holds(p, Bufs(o.cells) + rest)
    requires g.reliable && Accounted(o)
    ensures Accounted(Write1(p, o, g, fp, data).1)
  {
    hide FragTotal, ActiveLen, SlotOk, Write1;
    var (p', o', out) := Write1(p, o, g, fp, data);
    WriteShape(p, o, g, fp, data);
    if Took(out) {
      InFlightBounded(o, fp);
      TailIdle(o, fp);
      ActiveLenUpdate(o.cells, o.tail, o'.cells[o.tail]);
    }
  }

  // The count survives a write exactly when the channel is reliable or nothing was taken: an
  // unreliable channel queues the message and does not count it.
  lemma WriteAccountedIff(p: Pool, o: Out, g: Gate, fp: nat, data: bytes, rest: multiset<int>)
    requires fp >= 64 && OutOk(o, fp) && Holds(p, Bufs(o.cells) + rest) && Accounted(o)
    ensures var (p', o', out) := Write1(p, o, g, fp, data);
            && (Accounted(o') <==> g.reliable || !Took(out))
            && (!g.reliable ==> o'.inFlight == o.inFlight)
  {
    hide FragTotal, ActiveLen, SlotOk, Write1;
    var (p', o', out) := Write1(p, o, g, fp, data);
    WriteShape(p, o, g, fp, data);
    if g.reliable {
      WriteAccounted(p, o, g, fp, data, rest);
    } else if Took(out) {
      TailIdle(o, fp);
      ActiveLenUpdate(o.cells, o.tail, o'.cells[o.tail]);
    }
  }

  // Flow control: what a reliable sender has in flight after a write never exceeds the
  // window its peer last advertised.
  lemma WriteWithinWindow(p: Pool, o: Out, g: Gate, fp: nat, data: bytes, rest: multiset<int>)
    requires fp >= 64 && OutOk(o, fp) && Holds(p, Bufs(o.cells) + rest)
    requires g.reliable && g.status == Open && Accounted(o) && Took(Write1(p, o, g, fp, data).2)
    ensures ActiveLen(Write1(p, o, g, fp, data).1.cells) <= g.window
  {
    hide FragTotal, ActiveLen, SlotOk;
    WriteShape(p, o, g, fp, data);
    InFlightBounded(o, fp);
    TailIdle(o, fp);
    ActiveLenUpdate(o.cells, o.tail, Filled(o, Get(p).1, fp, data));
  }

  lemma TailIdle(o: Out, fp: nat)
    requires fp > 0 && OutOk(o, fp)
    ensures !o.cells[o.tail].meta.active
  {
    assert SlotOk(o, o.tail, fp);
  }

  // ----- acknowledgements -----

  // Signed 16-bit comparison: at or before the acknowledged number.
  predicate Covered(seqno: u16, acked: u16) {
    var d := Dist(seqno, acked);
    d == 0 || d >= 0x8000
  }

  function Released(c: OutCell): OutCell {
    Cell(NOBUF, c.len, c.meta.(active := false))
  }

  // Free every covered slot from i on.
  function AckFrom(p: Pool, cells: seq<OutCell>, inFlight: u32, acked: u16, i: nat): (Pool, seq<OutCell>, u32)
    requires forall j :: 0 <= j < |cells| ==> cells[j].len <= MAX_MSG
    decreases |cells| - i
  {
    if i >= |cells| then (p, cells, inFlight)
    else if Acked(cells[i], acked) then
      AckFrom(Put(p, cells[i].buf), cells[i := Released(cells[i])], Minus32(inFlight, cells[i].len), acked, i + 1)
    else AckFrom(p, cells, inFlight, acked, i + 1)
  }

  predicate Acked(c: OutCell, acked: u16) {
    c.meta.active && Covered(c.meta.seqno, acked)
  }

  // Each slot either as it was or released, and from i on released exactly when covered.
  ghost predicate AckedTo(cells: seq<OutCell>, cells': seq<OutCell>, acked: u16, i: nat) {
    && |cells'| == |cells|
    && forall j :: 0 <= j < |cells| ==>
         cells'[j] == if i <= j && Acked(cells[j], acked) then Released(cells[j]) else cells[j]
  }

  ghost predicate CellsOk(cells: seq<OutCell>) {
    forall j :: 0 <= j < |cells| ==>
      cells[j].len <= MAX_MSG && (cells[j].buf != NOBUF <==> cells[j].meta.active)
  }

  lemma {:induction false} AckFromKept(p: Pool, cells: seq<OutCell>, inFlight: u32, acked: u16, i: nat, rest: multiset<int>)
    requires CellsOk(cells) && Holds(p, Bufs(cells) + rest)
    ensures var (p', cells', n') := AckFrom(p, cells, inFlight, acked, i);
            && AckedTo(cells, cells', acked, i) && CellsOk(cells')
            && p'.store == p.store && Kept(p, Bufs(cells) + rest, p', Bufs(cells') + rest)
    decreases |cells| - i
  {
    hide Bufs, Covered, Put;
    if i < |cells| {
      if Acked(cells[i], acked) {
        var (p1, cells1) := (Put(p, cells[i].buf), cells[i := Released(cells[i])]);
        SlotGiven(cells, i, Released(cells[i]), rest);
        PutKept(p, cells[i].buf, Bufs(cells1) + rest);
        KeptHolds(p, Bufs(cells) + rest, p1, Bufs(cells1) + rest);
        AckFromKept(p1, cells1, Minus32(inFlight, cells[i].len), acked, i + 1, rest);
        var (p', cells', n') := AckFrom(p, cells, inFlight, acked, i);
        KeptThrough(p, Bufs(cells) + rest, p1, Bufs(cells1) + rest, p', Bufs(cells') + rest);
      } else {
        AckFromKept(p, cells, inFlight, acked, i + 1, rest);
      }
    }
  }

  lemma MinusTwice(n: u32, x: nat, y: nat)
    requires x + y < 0x1_0000_0000
    ensures Minus32(Minus32(n, x), y) == Minus32(n, x + y)
  {
  }

  // The count falls, in 32 bits, by exactly the bytes released.
  lemma {:induction false} AckFromCount(p: Pool, cells: seq<OutCell>, inFlight: u32, acked: u16, i: nat)
    requires CellsOk(cells) && ActiveLen(cells) < 0x1_0000_0000
    ensures var (p', cells', n') := AckFrom(p, cells, inFlight, acked, i);
            ActiveLen(cells') <= ActiveLen(cells) && n' == Minus32(inFlight, ActiveLen(cells) - ActiveLen(cells'))
    decreases |cells| - i
  {
    hide ActiveLen, Covered, Put, Minus32;
    if i < |cells| {
      if Acked(cells[i], acked) {
        var cells1 := cells[i := Released(cells[i])];
        ActiveLenUpdate(cells, i, Released(cells[i]));
        AckFromCount(Put(p, cells[i].buf), cells1, Minus32(inFlight, cells[i].len), acked, i + 1);
        var (p', cells', n') := AckFrom(p, cells, inFlight, acked, i);
        MinusTwice(inFlight, cells[i].len, ActiveLen(cells1) - ActiveLen(cells'));
      } else {
        AckFromCount(p, cells, inFlight, acked, i + 1);
      }
    } else {
      assert Minus32(inFlight, 0) == inFlight by { MinusNone(inFlight); }
    }
  }

  lemma MinusNone(n: u32)
    ensures Minus32(n, 0) == n
  {
  }

  // A covered message that is not empty makes it fall.
  lemma {:induction false} AckFromReleases(p: Pool, cells: seq<OutCell>, inFlight: u32, acked: u16, i: nat, j: nat)
    requires CellsOk(cells) && ActiveLen(cells) < 0x1_0000_0000
    requires i <= j < |cells| && Acked(cells[j], acked) && cells[j].len > 0
    ensures ActiveLen(AckFrom(p, cells, inFlight, acked, i).1) < ActiveLen(cells)
    decreases |cells| - i
  {
    hide ActiveLen, Covered, Put, Minus32;
    if Acked(cells[i], acked) {
      var p1, cells1, n1 := Put(p, cells[i].buf), cells[i := Released(cells[i])], Minus32(inFlight, cells[i].len);
      ActiveLenUpdate(cells, i, Released(cells[i]));
      if i == j {
        AckFromCount(p1, cells1, n1, acked, i + 1);
      } else {
        AckFromReleases(p1, cells1, n1, acked, i + 1, j);
      }
    } else {
      AckFromReleases(p, cells, inFlight, acked, i + 1, j);
    }
  }

  // Move the head past slots already free.
  function Advance(cells: seq<OutCell>, head: nat, tail: nat): (h: nat)
    requires |cells| == OUTGOING_SLOTS && head < OUTGOING_SLOTS && tail < OUTGOING_SLOTS
    ensures h < OUTGOING_SLOTS
    ensures h == tail || cells[h].meta.active
    decreases Ahead(tail, head)
  {
    if head == tail || cells[head].meta.active then head else Advance(cells, NextIx(head), tail)
  }

  // No active slot is left behind the head.
  lemma {:induction false} AdvanceOk(o: Out, fp: nat)
    requires fp > 0 && OutOk(o, fp)
    ensures OutOk(o.(head := Advance(o.cells, o.head, o.tail)), fp)
    decreases Ahead(o.tail, o.head)
  {
    if o.head != o.tail && !o.cells[o.head].meta.active {
      var o1 := o.(head := NextIx(o.head));
      forall i | 0 <= i < OUTGOING_SLOTS ensures SlotOk(o1, i, fp) {
        assert SlotOk(o, i, fp);
      }
      AdvanceOk(o1, fp);
    }
  }

  function Ack(p: Pool, o: Out, acked: u16, fp: nat): (Pool, Out)
    requires fp > 0 && OutOk(o, fp)
  {
    SlotsSized(o, fp);
    var (p1, cells, n) := AckFrom(p, o.cells, o.inFlight, acked, 0);
    AckFromShape(p, o.cells, o.inFlight, acked, 0);
    (p1, o.(cells := cells, inFlight := n, head := Advance(cells, o.head, o.tail)))
  }

  lemma SlotsSized(o: Out, fp: nat)
    requires fp > 0 && OutOk(o, fp)
    ensures CellsOk(o.cells)
  {
    forall i | 0 <= i < |o.cells|
      ensures o.cells[i].len <= MAX_MSG && (o.cells[i].buf != NOBUF <==> o.cells[i].meta.active) {
      assert SlotOk(o, i, fp);
    }
  }

  lemma {:induction false} AckFromShape(p: Pool, cells: seq<OutCell>, inFlight: u32, acked: u16, i: nat)
    requires CellsOk(cells)
    ensures |AckFrom(p, cells, inFlight, acked, i).1| == |cells|
    decreases |cells| - i
  {
    hide Covered, Put;
    if i < |cells| {
      if Acked(cells[i], acked) {
        AckFromShape(Put(p, cells[i].buf), cells[i := Released(cells[i])], Minus32(inFlight, cells[i].len), acked, i + 1);
      } else {
        AckFromShape(p, cells, inFlight, acked, i + 1);
      }
    }
  }

  // Any acknowledgement at all: exactly the covered slots go, their buffers return to the
  // pool, and what is counted in flight is what remains.
  lemma AckKept(p: Pool, o: Out, acked: u16, fp: nat, rest: multiset<int>)
    requires fp > 0 && OutOk(o, fp) && Holds(p, Bufs(o.cells) + rest)
    ensures var (p', o') := Ack(p, o, acked, fp);
            && OutOk(o', fp) && AckedTo(o.cells, o'.cells, acked, 0)
            && o'.seqno == o.seqno && o'.tail == o.tail
            && (o'.head == o'.tail || o'.cells[o'.head].meta.active)
            && p'.store == p.store && Kept(p, Bufs(o.cells) + rest, p', Bufs(o'.cells) + rest)
            && (Accounted(o) <==> Accounted(o'))
  {
    hide FragTotal, Bufs, ActiveLen, AckFrom, Covered, Put;
    SlotsSized(o, fp);
    AckFromKept(p, o.cells, o.inFlight, acked, 0, rest);
    var (p1, cells, n) := AckFrom(p, o.cells, o.inFlight, acked, 0);
    var o1 := o.(cells := cells, inFlight := n);
    forall i | 0 <= i < OUTGOING_SLOTS ensures SlotOk(o1, i, fp) {
      assert SlotOk(o, i, fp);
    }
    AdvanceOk(o1, fp);
    InFlightBounded(o, fp);
    AckFromCount(p, o.cells, o.inFlight, acked, 0);
  }

  // An unreliable channel starts with a count of 0 and no write changes it. An acknowledgement
  // leaves it at 0 if and only if it covers no message of the ring.
  lemma UncountedAckIff(p: Pool, o: Out, acked: u16, fp: nat)
    requires fp > 0 && OutOk(o, fp) && o.inFlight == 0
    ensures Ack(p, o, acked, fp).1.inFlight == 0 <==> forall j :: 0 <= j < |o.cells| ==> !Acked(o.cells[j], acked)
  {
    hide FragTotal, ActiveLen, AckFrom, Covered, Put;
    SlotsSized(o, fp);
    InFlightBounded(o, fp);
    AckFromCount(p, o.cells, 0, acked, 0);
    if j :| 0 <= j < |o.cells| && Acked(o.cells[j], acked) {
      assert SlotOk(o, j, fp);
      AckFromReleases(p, o.cells, 0, acked, 0, j);
    } else {
      NoneAcked(p, o.cells, 0, acked, 0);
    }
  }

  lemma {:induction false} NoneAcked(p: Pool, cells: seq<OutCell>, inFlight: u32, acked: u16, i: nat)
    requires CellsOk(cells) && forall j :: 0 <= j < |cells| ==> !Acked(cells[j], acked)
    ensures AckFrom(p, cells, inFlight, acked, i) == (p, cells, inFlight)
    decreases |cells| - i
  {
    if i < |cells| {
      NoneAcked(p, cells, inFlight, acked, i + 1);
    }
  }

  // It happens: acknowledging an unreliable message still in the ring takes its length off a
  // count it was never added to.
  lemma CountWraps(p: Pool, c: OutCell, acked: u16)
    requires c.meta.active && c.buf != NOBUF && c.meta.seqno == acked && 0 < c.len <= MAX_MSG
    ensures AckFrom(p, [c], 0, acked, 0).2 == 0x1_0000_0000 - c.len
  {
    assert AckFrom(Put(p, c.buf), [c][0 := Released(c)], Minus32(0, c.len), acked, 1).2 == Minus32(0, c.len);
  }

  // ----- sending -----

  // The first slot from i on that still has a fragment to send.
  function NextSendable(cells: seq<OutCell>, i: nat, tail: nat): (k: int)
    requires |cells| == OUTGOING_SLOTS && i < OUTGOING_SLOTS && tail < OUTGOING_SLOTS
    ensures k == -1 || (0 <= k < OUTGOING_SLOTS && Sendable1(cells[k]))
    decreases Ahead(tail, i)
  {
    if i == tail then -1 else if Sendable1(cells[i]) then i else NextSendable(cells, NextIx(i), tail)
  }

  predicate Sendable1(c: OutCell) {
    c.meta.active && c.meta.sent < c.meta.total
  }

  // The scan misses nothing.
  lemma {:induction false} ScanComplete(o: Out, fp: nat, i: nat)
    requires fp > 0 && OutOk(o, fp) && i < OUTGOING_SLOTS
    requires NextSendable(o.cells, i, o.tail) == -1
    ensures forall j :: 0 <= j < OUTGOING_SLOTS && Ahead(i, o.head) <= Ahead(j, o.head) < Ahead(o.tail, o.head) ==>
              !Sendable1(o.cells[j])
    decreases Ahead(o.tail, i)
  {
    if i != o.tail {
      ScanComplete(o, fp, NextIx(i));
    }
  }

  function Piece(p: Pool, c: OutCell, fp: nat): bytes {
    if 0 <= c.buf < |p.store| && c.len <= |p.store[c.buf]| then Frag(p.store[c.buf][..c.len], fp, c.meta.sent) else []
  }

  // Send the next fragment of slot k: the frame, and the slot with its progress. The last
  // fragment of an unreliable message frees the slot at once.
  function Emit(p: Pool, o: Out, reliable: bool, fp: nat, k: nat, now: u32): (Pool, Out, Frame)
    requires |o.cells| == OUTGOING_SLOTS && o.head < OUTGOING_SLOTS && o.tail < OUTGOING_SLOTS && k < OUTGOING_SLOTS
  {
    var c := o.cells[k];
    var m := c.meta.(sent := c.meta.sent + 1, sentMs := now, attempts := if c.meta.attempts == 0 then 1 else c.meta.attempts);
    var f := Frame(c.meta.seqno, c.meta.sent, c.meta.total, Piece(p, c, fp));
    if m.sent >= m.total && !reliable then
      var cells := o.cells[k := Released(c.(meta := m))];
      (Put(p, c.buf), o.(cells := cells, head := Advance(cells, o.head, o.tail)), f)
    else (p, o.(cells := o.cells[k := c.(meta := m)]), f)
  }

  lemma SlotChanged(o: Out, fp: nat, k: nat, c: OutCell)
    requires fp > 0 && OutOk(o, fp) && k < OUTGOING_SLOTS
    requires c.len == o.cells[k].len && (c.buf != NOBUF <==> c.meta.active)
    requires c.meta.active ==> o.cells[k].meta.active && c.meta.total == o.cells[k].meta.total
    ensures OutOk(o.(cells := o.cells[k := c]), fp)
  {
    hide FragTotal;
    var o' := o.(cells := o.cells[k := c]);
    forall i | 0 <= i < OUTGOING_SLOTS ensures SlotOk(o', i, fp) {
      assert SlotOk(o, i, fp) && SlotOk(o, k, fp);
    }
  }

  lemma EmitKept(p: Pool, o: Out, reliable: bool, fp: nat, k: nat, now: u32, rest: multiset<int>)
    requires fp > 0 && OutOk(o, fp) && Holds(p, Bufs(o.cells) + rest) && k < OUTGOING_SLOTS && Sendable1(o.cells[k])
    ensures var (p', o', f) := Emit(p, o, reliable, fp, k, now);
            && OutOk(o', fp) && p'.store == p.store
            && Kept(p, Bufs(o.cells) + rest, p', Bufs(o'.cells) + rest)
            && (reliable && Accounted(o) ==> Accounted(o'))
  {
    hide FragTotal, Bufs, ActiveLen, Put, Frag;
    var c := o.cells[k];
    var (p', o', f) := Emit(p, o, reliable, fp, k, now);
    var c' := o'.cells[k];
    assert SlotOk(o, k, fp);
    SlotChanged(o, fp, k, c');
    if c'.buf == NOBUF {
      SlotGiven(o.cells, k, c', rest);
      PutKept(p, c.buf, Bufs(o'.cells) + rest);
      AdvanceOk(o.(cells := o.cells[k := c']), fp);
    } else {
      BufsUpdate(o.cells, k, c');
      assert Bufs(o'.cells) == Bufs(o.cells) by {
        assert Bufs(o'.cells) + One(c.buf) - One(c.buf) == Bufs(o'.cells);
        assert Bufs(o.cells) + One(c.buf) - One(c.buf) == Bufs(o.cells);
      }
      ActiveLenUpdate(o.cells, k, c');
    }
  }

  // ----- retransmission -----

  // The timeout doubles with each attempt, in 32 bits, up to a second.
  function Timeout(rt: u32, attempts: nat): nat {
    Min(Low32(rt * Doubled(attempts - 1)), MAX_RT_MS)
  }

  function Doubled(n: int): nat {
    if n <= 0 then 1 else 2 * Doubled(n - 1)
  }

  function Low32(n: nat): nat {
    n % 0x1_0000_0000
  }

  // Arm every overdue slot from i on for sending again; give up the channel when one has
  // been tried too often.
  function Retransmit(cells: seq<OutCell>, rt: u32, now: u32, i: nat): (seq<OutCell>, bool)
    decreases |cells| - i
  {
    if i >= |cells| then (cells, false)
    else
      var m := cells[i].meta;
      if m.active && m.sentMs != 0 && Minus32(now, m.sentMs) >= Timeout(rt, m.attempts) then
        if m.attempts >= MAX_RT_ATTEMPTS then (cells, true)
        else
          Retransmit(cells[i := cells[i].(meta := m.(sent := 0, sentMs := now, attempts := m.attempts + 1))], rt, now, i + 1)
      else Retransmit(cells, rt, now, i + 1)
  }

  // Nothing but the progress of slots changes.
  ghost predicate SameLoad(cells: seq<OutCell>, cells': seq<OutCell>) {
    && |cells'| == |cells|
    && forall i :: 0 <= i < |cells| ==> SameSlot(cells[i], cells'[i])
  }

  ghost predicate SameSlot(c: OutCell, c': OutCell) {
    && c'.buf == c.buf && c'.len == c.len && c'.meta.active == c.meta.active
    && c'.meta.seqno == c.meta.seqno && c'.meta.total == c.meta.total
  }

  lemma {:induction false} RetransmitSame(cells: seq<OutCell>, rt: u32, now: u32, i: nat)
    ensures SameLoad(cells, Retransmit(cells, rt, now, i).0)
    decreases |cells| - i
  {
    hide Timeout;
    if i < |cells| {
      var m := cells[i].meta;
      if m.active && m.sentMs != 0 && Minus32(now, m.sentMs) >= Timeout(rt, m.attempts) {
        if m.attempts < MAX_RT_ATTEMPTS {
          RetransmitSame(cells[i := cells[i].(meta := m.(sent := 0, sentMs := now, attempts := m.attempts + 1))], rt, now, i + 1);
        }
      } else {
        RetransmitSame(cells, rt, now, i + 1);
      }
    }
  }

  predicate Overdue(m: OutMeta, rt: u32, now: u32) {
    m.active && m.sentMs != 0 && Minus32(now, m.sentMs) >= Timeout(rt, m.attempts)
  }

  predicate Exhausted(m: OutMeta, rt: u32, now: u32) {
    Overdue(m, rt, now) && m.attempts >= MAX_RT_ATTEMPTS
  }

  function Rearmed(c: OutCell, now: u32): OutCell {
    c.(meta := c.meta.(sent := 0, sentMs := now, attempts := c.meta.attempts + 1))
  }

  // The channel dies exactly when an overdue slot is out of attempts; otherwise every
  // overdue slot, and no other, starts again from its first fragment.
  lemma {:induction false} RetransmitRearms(cells: seq<OutCell>, rt: u32, now: u32, i: nat)
    ensures var (cells', dead) := Retransmit(cells, rt, now, i);
            && (dead <==> exists j :: i <= j < |cells| && Exhausted(cells[j].meta, rt, now))
            && (!dead ==> |cells'| == |cells| && forall j :: 0 <= j < |cells| ==>
                  cells'[j] == if i <= j && Overdue(cells[j].meta, rt, now) then Rearmed(cells[j], now) else cells[j])
    decreases |cells| - i
  {
    hide Timeout;
    if i < |cells| {
      if Overdue(cells[i].meta, rt, now) {
        if cells[i].meta.attempts < MAX_RT_ATTEMPTS {
          var cells1 := cells[i := Rearmed(cells[i], now)];
          RetransmitRearms(cells1, rt, now, i + 1);
          assert forall j :: i < j < |cells| ==> cells1[j] == cells[j];
          assert forall j :: i <= j < |cells| && Exhausted(cells[j].meta, rt, now) ==> i < j && Exhausted(cells1[j].meta, rt, now);
        } else {
          assert Exhausted(cells[i].meta, rt, now);
        }
      } else {
        RetransmitRearms(cells, rt, now, i + 1);
      }
    }
  }

  lemma {:induction false} SameLoadSums(cells: seq<OutCell>, cells': seq<OutCell>)
    requires SameLoad(cells, cells')
    ensures Bufs(cells') == Bufs(cells) && ActiveLen(cells') == ActiveLen(cells)
  {
    if cells != [] {
      SameLoadSums(cells[..|cells| - 1], cells'[..|cells| - 1]);
    }
  }

  lemma SameLoadOk(o: Out, cells: seq<OutCell>, fp: nat)
    requires fp > 0 && OutOk(o, fp) && SameLoad(o.cells, cells)
    ensures OutOk(o.(cells := cells), fp)
  {
    hide FragTotal;
    var o' := o.(cells := cells);
    forall i | 0 <= i < OUTGOING_SLOTS ensures SlotOk(o', i, fp) {
      assert SlotOk(o, i, fp) && SameSlot(o.cells[i], cells[i]);
    }
  }

  // ----- a new channel -----

  // A channel just created: no slot of any kind is in use.
  ghost predicate Idle(o: Out) {
    && |o.cells| == OUTGOING_SLOTS && o.head == o.tail == 0 && o.seqno == 0 && o.inFlight == 0
    && forall i :: 0 <= i < OUTGOING_SLOTS ==>
         o.cells[i].buf == NOBUF && !o.cells[i].meta.active && o.cells[i].len == 0
  }

  function Repeat<T>(n: nat, x: T): (s: seq<T>)
    ensures |s| == n
  {
    if n == 0 then [] else Repeat(n - 1, x) + [x]
  }

  lemma {:induction false} RepeatAll<T>(n: nat, x: T)
    ensures forall i :: 0 <= i < n ==> Repeat(n, x)[i] == x
  {
    if n > 0 { RepeatAll(n - 1, x); }
  }

  const BLANK_OUT := Cell(NOBUF, 0, OutMeta(0, 0, 0, false, 0, 0))

  function NewOut(): (o: Out) {
    Out(Repeat(OUTGOING_SLOTS, BLANK_OUT), 0, 0, 0, 0)
  }

  lemma NewOutIdle()
    ensures Idle(NewOut())
  {
    RepeatAll(OUTGOING_SLOTS, BLANK_OUT);
  }

  lemma {:induction false} NothingActive(cells: seq<OutCell>)
    requires forall i :: 0 <= i < |cells| ==> !cells[i].meta.active
    ensures ActiveLen(cells) == 0
  {
    if cells != [] {
      NothingActive(cells[..|cells| - 1]);
    }
  }

  lemma IdleOk(o: Out, fp: nat)
    requires fp > 0 && Idle(o)
    ensures OutOk(o, fp) && Bufs(o.cells) == multiset{} && Accounted(o)
  {
    hide FragTotal;
    BufsNone(o.cells);
    NothingActive(o.cells);
  }
}
