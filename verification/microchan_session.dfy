// Two microchan endpoints over a network that may drop, repeat and reorder datagrams.
module MicrochanSession {
  import opened Bytes
  import opened MicrochanMachine

  // ----- unbounded numbers behind the 16-bit fields -----

  // The 16-bit field a number is kept in.
  function Low(x: nat): u16 {
    if x < 0x1_0000 then x else Low(x - 0x1_0000)
  }

  lemma {:induction false} LowMod(x: nat)
    ensures Low(x) == x % 0x1_0000
  {
    if x >= 0x1_0000 {
      LowMod(x - 0x1_0000);
    }
  }

  lemma LowNext(x: nat)
    ensures Low(x + 1) == Next16(Low(x))
  {
    LowMod(x);
    LowMod(x + 1);
  }

  lemma LowPlus(x: nat, n: nat)
    requires n <= 0x1_0000
    ensures Low(x + n) == Plus16(Low(x), n)
  {
    LowMod(x);
    LowMod(x + n);
  }

  lemma LowDist(x: nat, y: nat)
    requires 0 <= x - y < 0x1_0000
    ensures Dist(Low(x), Low(y)) == x - y
  {
    LowMod(x);
    LowMod(y);
    DistLogical(x, y);
  }

  lemma LowAfter(x: nat, y: nat)
    requires -0x8000 <= x - y < 0x8000
    ensures SeqAfter(Low(x), Low(y)) <==> x > y
  {
    LowMod(x);
    LowMod(y);
    SeqAfterLogical(x, y);
  }

  // Numbers less than a full cycle apart are told apart by their low halves.
  lemma LowDistinct(x: nat, y: nat)
    requires -0x1_0000 < x - y < 0x1_0000
    ensures Low(x) == Low(y) <==> x == y
  {
    LowMod(x);
    LowMod(y);
  }

  // ----- what one side has sent and received over its lifetime -----

  // base messages are acknowledged; msgs are all reliable messages ever accepted by Write.
  datatype Sent = Sent(base: nat, msgs: seq<Msg>)

  // rx messages are consumed; read holds, per channel, what the application has read.
  datatype Taken = Taken(rx: nat, read: seq<seq<bytes>>)

  datatype Side = Side(ep: Ep, out: Sent, taken: Taken)

  // A datagram with the unbounded numbers it was sent under: the acknowledgement, the
  // number of its first reliable message, and the messages it carries.
  datatype Datagram = Datagram(pkt: bytes, ack: nat, first: nat, rel: seq<Msg>, un: seq<Msg>)

  // Every datagram sent so far stays available: delivering one twice, late or never is how
  // the network repeats, reorders and drops.
  datatype Sys = Sys(a: Side, b: Side, ab: set<Datagram>, ba: set<Datagram>)

  // The messages of one channel, in order.
  function Proj(ms: seq<Msg>, c: nat): seq<bytes> {
    if ms == [] then []
    else
      var last := ms[|ms| - 1];
      Proj(ms[..|ms| - 1], c) + if last.chan == c then [last.data] else []
  }

  lemma ProjNext(ms: seq<Msg>, n: nat, c: nat)
    requires n < |ms|
    ensures Proj(ms[..n + 1], c)
         == Proj(ms[..n], c) + if ms[n].chan == c then [ms[n].data] else []
  {
    assert ms[..n + 1][..n] == ms[..n];
  }

  lemma {:induction false} ProjPrefix(ms: seq<Msg>, n: nat, c: nat)
    requires n <= |ms|
    ensures Proj(ms[..n], c) <= Proj(ms, c)
    decreases |ms| - n
  {
    if n < |ms| {
      ProjNext(ms, n, c);
      ProjPrefix(ms, n + 1, c);
    } else {
      assert ms[..n] == ms;
    }
  }

  // ----- invariants, one direction at a time -----

  ghost predicate OnReliable(layout: seq<ChanSlot>, m: Msg) {
    m.chan < MAX_CHAN && m.chan < |layout| && layout[m.chan] == Open(Reliable) && MsgOk(m)
  }

  ghost predicate OnUnreliable(layout: seq<ChanSlot>, m: Msg) {
    m.chan < MAX_CHAN && m.chan < |layout| && layout[m.chan] == Open(Unreliable)
  }

  ghost predicate OutOk(t: Tx, out: Sent, layout: seq<ChanSlot>) {
    && TxValid(t)
    && t.base == Low(out.base)
    && out.base <= |out.msgs| && t.window == out.msgs[out.base..]
    && (forall i :: 0 <= i < |out.msgs| ==> OnReliable(layout, out.msgs[i]))
  }

  // What one channel has handed up or still holds is what was written to it, up to rx.
  ghost predicate ChanOk(r: Rx, g: Taken, msgs: seq<Msg>, c: nat)
    requires RxValid(r) && g.rx <= |msgs| && |g.read| == MAX_CHAN && c < MAX_CHAN
  {
    g.read[c] + r.rings[c] == Proj(msgs[..g.rx], c)
  }

  ghost predicate InOk(r: Rx, g: Taken, msgs: seq<Msg>, layout: seq<ChanSlot>) {
    && RxValid(r)
    && r.next == Low(g.rx)
    && g.rx <= |msgs| && |g.read| == MAX_CHAN && |layout| == MAX_CHAN
    && (forall c :: 0 <= c < MAX_CHAN && layout[c] == Open(Reliable) ==> ChanOk(r, g, msgs, c))
  }

  // A datagram says nothing its sender did not hold when it was sent.
  ghost predicate Honest(d: Datagram, out: Sent, rx: nat, layout: seq<ChanSlot>) {
    && |d.pkt| >= HDR
    && d.ack <= rx
    && |d.rel| <= WINDOW && d.first + |d.rel| <= |out.msgs|
    && d.rel == out.msgs[d.first..d.first + |d.rel|]
    && (forall i :: 0 <= i < |d.un| ==> OnUnreliable(layout, d.un[i]))
    && (d.pkt[4] == PKT_DATA ==>
          && Rd16(d.pkt, 6) == Low(d.ack)
          && ParseRecs(d.pkt[HDR..]) == RelRecs(Low(d.first), d.rel) + UnrelRecs(d.un))
  }

  ghost predicate Flow(x: Side, y: Side, net: set<Datagram>) {
    && x.ep.layout == y.ep.layout
    && OutOk(x.ep.tx, x.out, x.ep.layout)
    && InOk(y.ep.rx, y.taken, x.out.msgs, x.ep.layout)
    && x.out.base <= y.taken.rx
    && |x.ep.unrel| <= UNREL_TXQ && AllOk(x.ep.unrel)
    && (forall i :: 0 <= i < |x.ep.unrel| ==> OnUnreliable(x.ep.layout, x.ep.unrel[i]))
    && (forall d :: d in net ==> Honest(d, x.out, x.taken.rx, x.ep.layout))
  }

  ghost predicate Inv(s: Sys) {
    Flow(s.a, s.b, s.ab) && Flow(s.b, s.a, s.ba)
  }

  // ----- steps of one side -----

  function DoWrite(x: Side, ch: nat, data: bytes): Side
    requires Valid(x.ep)
  {
    var e := Write(x.ep, ch, data).0;
    Side(e, if e.tx == x.ep.tx then x.out else x.out.(msgs := x.out.msgs + [Msg(ch, data)]), x.taken)
  }

  function DoRead(x: Side, ch: nat, buflen: nat): Side
    requires Valid(x.ep)
  {
    var (r, got) := Read(x.ep.rx, ch, buflen);
    var read := x.taken.read;
    Side(x.ep.(rx := r), x.out,
         if got.Got? && ch < |read| then x.taken.(read := read[ch := read[ch] + [got.data]]) else x.taken)
  }

  // The datagram is what SendNext returns; an empty one is not sent.
  function DoSend(x: Side, buflen: nat): (Side, set<Datagram>)
    requires Valid(x.ep)
  {
    var (e, pkt) := SendNext(x.ep, buflen);
    var cap := Min(buflen, MTU);
    var data := !ControlDue(x.ep.hs);
    (x.(ep := e),
     if pkt == [] then {}
     else {Datagram(pkt, x.taken.rx, x.out.base + x.ep.tx.sent,
                    if data then RelOut(x.ep.tx, cap) else [],
                    if data then x.ep.unrel[..UnrelOut(x.ep.tx, x.ep.unrel, cap)] else [])})
  }

  function DoRecv(x: Side, d: Datagram): Side
    requires Valid(x.ep)
  {
    var e := Feed(x.ep, d.pkt).0;
    Side(e, x.out.(base := x.out.base + Dist(e.tx.base, x.ep.tx.base)),
         x.taken.(rx := x.taken.rx + Dist(e.rx.next, x.ep.rx.next)))
  }

  // Nothing older than half the number space is delivered.
  predicate Timely(x: Side, d: Datagram) {
    x.out.base <= d.ack + 0x8000 && x.taken.rx <= d.first + 0x8000
  }

  datatype Act = DWrite(ch: nat, data: bytes) | DRead(ch: nat, buflen: nat) | DSend(buflen: nat)
               | DRecv(d: Datagram) | DService(now: u32) | DConnect

  ghost predicate Enabled(x: Side, act: Act, inbound: set<Datagram>) {
    match act
    case DRecv(d) => d in inbound && Timely(x, d)
    case _ => true
  }

  // The side after one action, and what it puts on the network.
  function Act1(x: Side, act: Act): (Side, set<Datagram>)
    requires Valid(x.ep)
  {
    match act
    case DWrite(ch, data) => (DoWrite(x, ch, data), {})
    case DRead(ch, buflen) => (DoRead(x, ch, buflen), {})
    case DSend(buflen) => DoSend(x, buflen)
    case DRecv(d) => (DoRecv(x, d), {})
    case DService(now) => (x.(ep := Service(x.ep, now).0), {})
    case DConnect => (x.(ep := x.ep.(hs := Connect(x.ep.hs, x.ep.clk.now))), {})
  }

  // One step of the whole system: side a acts, or side b does.
  ghost predicate Next(s: Sys, s': Sys, byA: bool, act: Act) {
    if byA then
      && Valid(s.a.ep) && Enabled(s.a, act, s.ba)
      && s'.b == s.b && s'.ba == s.ba
      && (s'.a, s'.ab) == (Act1(s.a, act).0, s.ab + Act1(s.a, act).1)
    else
      && Valid(s.b.ep) && Enabled(s.b, act, s.ab)
      && s'.a == s.a && s'.ab == s.ab
      && (s'.b, s'.ba) == (Act1(s.b, act).0, s.ba + Act1(s.b, act).1)
  }

  ghost predicate Init(s: Sys, layout: seq<ChanSlot>, idA: u32, idB: u32) {
    && |layout| == MAX_CHAN
    && s == Sys(Side(Fresh(false, idA, layout), Sent(0, []), Taken(0, [[], []])),
                Side(Fresh(true, idB, layout), Sent(0, []), Taken(0, [[], []])), {}, {})
  }

  lemma InitHolds(s: Sys, layout: seq<ChanSlot>, idA: u32, idB: u32)
    requires Init(s, layout, idA, idB)
    ensures Inv(s)
  {
  }

  // ----- sending half of each step -----

  lemma WriteKeepsFlow(x: Side, y: Side, net: set<Datagram>, ch: nat, data: bytes)
    requires Valid(x.ep) && Flow(x, y, net)
    ensures Flow(DoWrite(x, ch, data), y, net)
  {
    hide ParseRecs, RelRecs;
    var x' := DoWrite(x, ch, data);
    if x'.ep.tx != x.ep.tx {
      var ms, ms' := x.out.msgs, x'.out.msgs;
      assert ms' == ms + [Msg(ch, data)];
      assert ms'[x.out.base..] == ms[x.out.base..] + [Msg(ch, data)];
      assert ms'[..y.taken.rx] == ms[..y.taken.rx];
      forall d | d in net ensures Honest(d, x'.out, x.taken.rx, x.ep.layout) {
        assert ms'[d.first..d.first + |d.rel|] == ms[d.first..d.first + |d.rel|];
      }
    }
  }

  // An acknowledgement within half the number space moves the base to it, never back.
  lemma AckMoves(t: Tx, out: Sent, layout: seq<ChanSlot>, now: u32, ack: nat)
    requires OutOk(t, out, layout) && ack <= |out.msgs| && out.base <= ack + 0x8000
    ensures var t' := ProcessAck(t, now, Low(ack));
            var b := if ack > out.base then ack else out.base;
            && b == out.base + Dist(t'.base, t.base)
            && OutOk(t', out.(base := b), layout)
  {
    LowAfter(ack, out.base);
    if ack > out.base {
      var k := ack - out.base;
      LowDist(ack, out.base);
      LowPlus(out.base, k);
      assert out.msgs[out.base..][k..] == out.msgs[ack..];
    }
  }

  // ----- receiving half -----

  function RelRec(x: nat, m: Msg): Rec {
    Rec(m.chan, MT_REL, Low(x), m.data)
  }

  // A reliable record is taken exactly when it is the next message; otherwise, and when
  // its ring is full, the receiver stays where it is.
  lemma DeliverOne(r: Rx, g: Taken, msgs: seq<Msg>, layout: seq<ChanSlot>, x: nat)
    requires InOk(r, g, msgs, layout) && x < |msgs| && OnReliable(layout, msgs[x])
    requires -0x1_0000 < x - g.rx < 0x1_0000
    ensures var r' := Deliver(r, layout, RelRec(x, msgs[x]));
            var took := x == g.rx && |r.rings[msgs[x].chan]| < RECVQ;
            && r'.ackPending
            && InOk(r', g.(rx := if took then g.rx + 1 else g.rx), msgs, layout)
            && r'.rings == if took then Push(r, msgs[x].chan, msgs[x].data).rings else r.rings
  {
    LowDistinct(x, g.rx);
    LowNext(g.rx);
    var m := msgs[x];
    if x == g.rx && |r.rings[m.chan]| < RECVQ {
      var r' := Deliver(r, layout, RelRec(x, m));
      forall c | 0 <= c < MAX_CHAN && layout[c] == Open(Reliable)
        ensures ChanOk(r', g.(rx := g.rx + 1), msgs, c) {
        assert ChanOk(r, g, msgs, c);
        ProjNext(msgs, g.rx, c);
        if c == m.chan {
          assert r'.rings[c] == r.rings[c] + [m.data];
        }
      }
    }
  }

  // Why the age bound is needed: a record a whole number of cycles away from the next one
  // wanted is taken in its place.
  lemma StaleRecordIsTaken(r: Rx, layout: seq<ChanSlot>, x: nat, rx: nat, m: Msg)
    requires RxValid(r) && |layout| == MAX_CHAN && OnReliable(layout, m) && r.next == Low(rx)
    requires |r.rings[m.chan]| < RECVQ
    ensures Deliver(r, layout, RelRec(x, m)).next != r.next <==> (x - rx) % 0x1_0000 == 0
  {
    LowMod(x);
    LowMod(rx);
  }

  // And an acknowledgement d messages old releases messages nobody consumed exactly when d,
  // modulo 2^16, is more than 2^15.
  lemma StaleAckReleases(t: Tx, base: nat, d: nat)
    requires t.window != [] && t.base == Low(base) && d <= base
    ensures AckCount(t, Low(base - d)) > 0 <==> d % 0x1_0000 > 0x8000
  {
    LowMod(base);
    LowMod(base - d);
    DistLogical(base - d, base);
    NegMod(d);
  }

  lemma NegMod(d: int)
    requires d >= 0
    ensures (-d) % 0x1_0000 == if d % 0x1_0000 == 0 then 0 else 0x1_0000 - d % 0x1_0000
  {
    var q, e := d / 0x1_0000, d % 0x1_0000;
    if e != 0 {
      ModIs(-d, -q - 1, 0x1_0000 - e);
    } else {
      ModIs(-d, -q, 0);
    }
  }

  lemma ModIs(x: int, q: int, r: int)
    requires x == 0x1_0000 * q + r && 0 <= r < 0x1_0000
    ensures x % 0x1_0000 == r
  {
    assert 0x1_0000 * (x / 0x1_0000 - q) == r - x % 0x1_0000;
  }

  lemma RelHead(msgs: seq<Msg>, x: nat, n: nat)
    requires 0 < n && x + n <= |msgs|
    ensures RelRecs(Low(x), msgs[x..x + n])
         == [RelRec(x, msgs[x])] + RelRecs(Low(x + 1), msgs[x + 1..x + 1 + (n - 1)])
  {
    LowNext(x);
    assert msgs[x..x + n][1..] == msgs[x + 1..x + n];
  }

  // A run of consecutive reliable records leaves the channels in step with what was written.
  lemma {:induction false} DeliverRel(r: Rx, g: Taken, msgs: seq<Msg>, layout: seq<ChanSlot>,
                                      x: nat, n: nat, ps: seq<Rec>, r': Rx) returns (rx: nat)
    requires InOk(r, g, msgs, layout) && x + n <= |msgs| <= g.rx + WINDOW
    requires g.rx <= x + 0x8000 && n <= WINDOW
    requires forall i :: 0 <= i < |msgs| ==> OnReliable(layout, msgs[i])
    requires ps == RelRecs(Low(x), msgs[x..x + n]) && r' == DeliverAll(r, layout, ps)
    ensures g.rx <= rx <= g.rx + n && InOk(r', g.(rx := rx), msgs, layout)
    decreases n
  {
    if n == 0 {
      assert ps == [];
      rx := g.rx;
    } else {
      DeliverOne(r, g, msgs, layout, x);
      RelHead(msgs, x, n);
      var took := x == g.rx && |r.rings[msgs[x].chan]| < RECVQ;
      rx := DeliverRel(Deliver(r, layout, ps[0]), g.(rx := if took then g.rx + 1 else g.rx),
                       msgs, layout, x + 1, n - 1, ps[1..], r');
    }
  }

  // Unreliable records touch no reliable channel.
  lemma {:induction false} DeliverUnrel(r: Rx, g: Taken, msgs: seq<Msg>, layout: seq<ChanSlot>,
                                        un: seq<Msg>)
    requires InOk(r, g, msgs, layout)
    requires forall i :: 0 <= i < |un| ==> OnUnreliable(layout, un[i])
    ensures InOk(DeliverAll(r, layout, UnrelRecs(un)), g, msgs, layout)
    decreases |un|
  {
    if un != [] {
      var r' := Deliver(r, layout, UnrelRecs(un)[0]);
      forall c | 0 <= c < MAX_CHAN && layout[c] == Open(Reliable)
        ensures ChanOk(r', g, msgs, c) {
        assert ChanOk(r, g, msgs, c);
      }
      assert UnrelRecs(un)[1..] == UnrelRecs(un[1..]);
      DeliverUnrel(r', g, msgs, layout, un[1..]);
    }
  }

  lemma {:induction false} DeliverConcat(r: Rx, layout: seq<ChanSlot>, p: seq<Rec>, q: seq<Rec>)
    requires RxValid(r)
    ensures DeliverAll(r, layout, p + q) == DeliverAll(DeliverAll(r, layout, p), layout, q)
    decreases |p|
  {
    if p == [] {
      assert p + q == q;
    } else {
      assert (p + q)[1..] == p[1..] + q;
      DeliverConcat(Deliver(r, layout, p[0]), layout, p[1..], q);
    }
  }

  // A feed either leaves the transfer state alone or runs the data path.
  predicate DataFed(e: Ep, pkt: bytes) {
    |pkt| >= HDR && pkt[4] == PKT_DATA && Rd32(pkt, 0) == e.hs.localId
    && Woken(e.hs).state == Connected
  }

  lemma FeedCases(e: Ep, pkt: bytes)
    requires Valid(e)
    ensures var e' := Feed(e, pkt).0;
            && e'.unrel == e.unrel && e'.layout == e.layout
            && (if DataFed(e, pkt)
                then e'.tx == ProcessAck(e.tx, e.clk.now, Rd16(pkt, 6))
                     && e'.rx == DeliverAll(e.rx, e.layout, ParseRecs(pkt[HDR..]))
                else e'.tx == e.tx && e'.rx == e.rx)
  {
  }

  lemma RecvKeepsIn(r: Rx, g: Taken, out: Sent, layout: seq<ChanSlot>, d: Datagram, rx0: nat)
    requires InOk(r, g, out.msgs, layout) && |out.msgs| <= g.rx + WINDOW
    requires forall i :: 0 <= i < |out.msgs| ==> OnReliable(layout, out.msgs[i])
    requires Honest(d, out, rx0, layout) && d.pkt[4] == PKT_DATA && g.rx <= d.first + 0x8000
    ensures var r' := DeliverAll(r, layout, ParseRecs(d.pkt[HDR..]));
            InOk(r', g.(rx := g.rx + Dist(r'.next, r.next)), out.msgs, layout)
  {
    hide DeliverAll, RelRecs, ParseRecs;
    var ps, us := RelRecs(Low(d.first), d.rel), UnrelRecs(d.un);
    DeliverConcat(r, layout, ps, us);
    var rx := DeliverRel(r, g, out.msgs, layout, d.first, |d.rel|, ps, DeliverAll(r, layout, ps));
    DeliverUnrel(DeliverAll(r, layout, ps), g.(rx := rx), out.msgs, layout, d.un);
    LowDist(rx, g.rx);
  }

  // Receiving, seen by the flow in which the receiver is the reader.
  lemma RecvKeepsInFlow(x: Side, y: Side, net: set<Datagram>, d: Datagram)
    requires Flow(x, y, net) && Valid(y.ep) && d in net && Timely(y, d)
    ensures Flow(x, DoRecv(y, d), net)
  {
    FeedCases(y.ep, d.pkt);
    if DataFed(y.ep, d.pkt) {
      RecvKeepsIn(y.ep.rx, y.taken, x.out, x.ep.layout, d, x.taken.rx);
    }
  }

  // Receiving, seen by the flow in which the receiver is the writer.
  lemma RecvKeepsOutFlow(x: Side, y: Side, net: set<Datagram>, d: Datagram, inbound: set<Datagram>)
    requires Flow(x, y, net) && Flow(y, x, inbound) && Valid(x.ep) && d in inbound && Timely(x, d)
    ensures Flow(DoRecv(x, d), y, net)
  {
    var x' := DoRecv(x, d);
    FeedCases(x.ep, d.pkt);
    if DataFed(x.ep, d.pkt) {
      AckMoves(x.ep.tx, x.out, x.ep.layout, x.ep.clk.now, d.ack);
    }
    assert x'.taken.rx >= x.taken.rx;
  }

  // ----- sending -----

  // The datagram a send puts out, by kind.
  function ControlOut(x: Side): Datagram
    requires ControlDue(x.ep.hs)
  {
    Datagram(SendControl(x.ep.hs).1, x.taken.rx, x.out.base + x.ep.tx.sent, [], [])
  }

  function DataOut(x: Side, cap: nat): Datagram
    requires Valid(x.ep)
  {
    Stamp(x, cap, DataPacket(x.ep, cap))
  }

  function Stamp(x: Side, cap: nat, pkt: bytes): Datagram
    requires Valid(x.ep)
  {
    Datagram(pkt, x.taken.rx, x.out.base + x.ep.tx.sent, RelOut(x.ep.tx, cap),
             x.ep.unrel[..UnrelOut(x.ep.tx, x.ep.unrel, cap)])
  }

  lemma ControlIsHonest(x: Side)
    requires OutOk(x.ep.tx, x.out, x.ep.layout) && ControlDue(x.ep.hs)
    ensures Honest(ControlOut(x), x.out, x.taken.rx, x.ep.layout)
  {
  }

  lemma DataIsHonest(x: Side, cap: nat)
    requires Valid(x.ep) && OutOk(x.ep.tx, x.out, x.ep.layout) && x.ep.rx.next == Low(x.taken.rx)
    requires forall i :: 0 <= i < |x.ep.unrel| ==> OnUnreliable(x.ep.layout, x.ep.unrel[i])
    ensures Honest(DataOut(x, cap), x.out, x.taken.rx, x.ep.layout)
  {
    DataPacketReads(x.ep, cap);
    ReadsHonest(x, cap, DataPacket(x.ep, cap));
  }

  lemma ReadsHonest(x: Side, cap: nat, pkt: bytes)
    requires Valid(x.ep) && OutOk(x.ep.tx, x.out, x.ep.layout)
    requires forall i :: 0 <= i < |x.ep.unrel| ==> OnUnreliable(x.ep.layout, x.ep.unrel[i])
    requires |pkt| >= HDR && Rd16(pkt, 6) == Low(x.taken.rx)
    requires ParseRecs(pkt[HDR..]) == DataRecs(x.ep, cap)
    ensures Honest(Stamp(x, cap, pkt), x.out, x.taken.rx, x.ep.layout)
  {
    DataOutStamps(x.ep.tx, x.out, x.ep.layout, cap);
  }

  lemma DataOutStamps(t: Tx, out: Sent, layout: seq<ChanSlot>, cap: nat)
    requires OutOk(t, out, layout)
    ensures var first, rel := out.base + t.sent, RelOut(t, cap);
            && Low(first) == Plus16(t.base, t.sent)
            && first + |rel| <= |out.msgs| && |rel| <= WINDOW
            && rel == out.msgs[first..first + |rel|]
  {
    LowPlus(out.base, t.sent);
    Slices(out.msgs, out.base, t.sent, |RelOut(t, cap)|);
  }

  lemma Slices(ms: seq<Msg>, b: nat, s: nat, k: nat)
    requires b + s + k <= |ms|
    ensures ms[b..][s..][..k] == ms[b + s..b + s + k]
  {
  }

  lemma SendKeepsFlow(x: Side, y: Side, net: set<Datagram>, buflen: nat)
    requires Flow(x, y, net) && Valid(x.ep) && x.ep.rx.next == Low(x.taken.rx)
    ensures Flow(DoSend(x, buflen).0, y, net + DoSend(x, buflen).1)
  {
    if buflen >= HDR {
      if ControlDue(x.ep.hs) {
        ControlIsHonest(x);
        assert DoSend(x, buflen).1 <= {ControlOut(x)};
      } else if !Quiet(x.ep) {
        DataIsHonest(x, Min(buflen, MTU));
        assert DoSend(x, buflen).1 <= {DataOut(x, Min(buflen, MTU))};
      }
    }
  }

  lemma ReadKeepsFlow(x: Side, y: Side, net: set<Datagram>, ch: nat, buflen: nat)
    requires Flow(x, y, net) && Valid(y.ep)
    ensures Flow(x, DoRead(y, ch, buflen), net)
  {
    var y' := DoRead(y, ch, buflen);
    forall c | 0 <= c < MAX_CHAN && x.ep.layout[c] == Open(Reliable)
      ensures ChanOk(y'.ep.rx, y'.taken, x.out.msgs, c) {
      assert ChanOk(y.ep.rx, y.taken, x.out.msgs, c);
    }
  }

  // ----- every step keeps the invariant -----

  // One action of x, seen by the flow x writes and by the flow x reads.
  lemma ActKeepsFlows(x: Side, y: Side, xy: set<Datagram>, yx: set<Datagram>, act: Act)
    requires Valid(x.ep) && Flow(x, y, xy) && Flow(y, x, yx) && Enabled(x, act, yx)
    ensures var (x', sent) := Act1(x, act);
            Flow(x', y, xy + sent) && Flow(y, x', yx)
  {
    match act
    case DWrite(ch, data) =>
      WriteKeepsFlow(x, y, xy, ch, data);
    case DRead(ch, buflen) =>
      ReadKeepsFlow(y, x, yx, ch, buflen);
    case DSend(buflen) =>
      SendKeepsFlow(x, y, xy, buflen);
    case DRecv(d) =>
      RecvKeepsOutFlow(x, y, xy, d, yx);
      RecvKeepsInFlow(y, x, yx, d);
    case DService(now) =>
      ServiceKeepsFlows(x, y, xy, yx, now);
    case DConnect =>
  }

  lemma ServiceKeepsFlows(x: Side, y: Side, xy: set<Datagram>, yx: set<Datagram>, now: u32)
    requires Valid(x.ep) && Flow(x, y, xy) && Flow(y, x, yx)
    ensures var x' := x.(ep := Service(x.ep, now).0);
            Flow(x', y, xy) && Flow(y, x', yx)
  {
  }

  lemma FlowValid(x: Side, y: Side, xy: set<Datagram>, yx: set<Datagram>)
    requires Flow(x, y, xy) && Flow(y, x, yx)
    ensures Valid(x.ep)
  {
  }

  lemma StepKeepsInv(s: Sys, s': Sys, byA: bool, act: Act)
    requires Inv(s) && Next(s, s', byA, act)
    ensures Inv(s')
  {
    if byA {
      ActKeepsFlows(s.a, s.b, s.ab, s.ba, act);
    } else {
      ActKeepsFlows(s.b, s.a, s.ba, s.ab, act);
    }
  }

  // ----- runs -----

  datatype Label = Label(byA: bool, act: Act)

  // A run: every state follows from the one before by the step named between them.
  ghost predicate IsRun(run: seq<Sys>, steps: seq<Label>) {
    && |run| == |steps| + 1
    && forall i :: 0 <= i < |steps| ==> Next(run[i], run[i + 1], steps[i].byA, steps[i].act)
  }

  // What x wrote reaches y in order, without gaps or repeats, and a window slot is given
  // up only after the peer has consumed its message.
  ghost predicate Transfer(x: Side, y: Side) {
    && x.out.base <= y.taken.rx <= |x.out.msgs| <= x.out.base + WINDOW
    && x.ep.tx.base == Low(x.out.base) && y.ep.rx.next == Low(y.taken.rx)
    && x.ep.tx.window == x.out.msgs[x.out.base..]
    && |x.ep.layout| == |y.taken.read| == MAX_CHAN
    && forall c :: 0 <= c < MAX_CHAN && x.ep.layout[c] == Open(Reliable) ==>
         y.taken.read[c] <= Proj(x.out.msgs, c)
  }

  lemma FlowIsTransfer(x: Side, y: Side, net: set<Datagram>)
    requires Flow(x, y, net)
    ensures Transfer(x, y)
  {
    forall c | 0 <= c < MAX_CHAN && x.ep.layout[c] == Open(Reliable)
      ensures y.taken.read[c] <= Proj(x.out.msgs, c) {
      assert ChanOk(y.ep.rx, y.taken, x.out.msgs, c);
      ProjPrefix(x.out.msgs, y.taken.rx, c);
    }
  }

  // Main result: in every run from the start, over any drops, repeats and reordering, both
  // directions deliver exactly a prefix of what was written.
  lemma {:induction false} RunsDeliverPrefixes(run: seq<Sys>, steps: seq<Label>,
                                               layout: seq<ChanSlot>, idA: u32, idB: u32)
    requires IsRun(run, steps) && Init(run[0], layout, idA, idB)
    ensures forall i :: 0 <= i < |run| ==> Transfer(run[i].a, run[i].b) && Transfer(run[i].b, run[i].a)
  {
    forall i | 0 <= i < |run|
      ensures Transfer(run[i].a, run[i].b) && Transfer(run[i].b, run[i].a) {
      RunKeepsInv(run, steps, layout, idA, idB, i);
      FlowIsTransfer(run[i].a, run[i].b, run[i].ab);
      FlowIsTransfer(run[i].b, run[i].a, run[i].ba);
    }
  }

  lemma {:induction false} RunKeepsInv(run: seq<Sys>, steps: seq<Label>,
                                       layout: seq<ChanSlot>, idA: u32, idB: u32, i: nat)
    requires IsRun(run, steps) && Init(run[0], layout, idA, idB) && i < |run|
    ensures Inv(run[i])
  {
    if i == 0 {
      InitHolds(run[0], layout, idA, idB);
    } else {
      RunKeepsInv(run, steps, layout, idA, idB, i - 1);
      StepKeepsInv(run[i - 1], run[i], steps[i - 1].byA, steps[i - 1].act);
    }
  }
}
