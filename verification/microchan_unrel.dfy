// What becomes of unreliable messages: which are kept to be sent, which reach the peer's
// rings and in what order, and that none is read that was not written.
module MicrochanUnreliable {
  import opened Bytes
  import opened MicrochanMachine
  import opened MicrochanSession
  import opened MicrochanProgress

  // The oldest n of these.
  function Oldest<T>(s: seq<T>, n: nat): seq<T> {
    if |s| <= n then s else s[..n]
  }

  // The newest n of these.
  function Newest<T>(s: seq<T>, n: nat): seq<T> {
    if |s| <= n then s else s[|s| - n..]
  }

  // ----- the send queue -----

  function WriteAll(e: Ep, ch: nat, ds: seq<bytes>): (e': Ep)
    requires Valid(e)
    ensures Valid(e')
    decreases |ds|
  {
    if ds == [] then e else WriteAll(Write(e, ch, ds[0]).0, ch, ds[1..])
  }

  function OnChannel(ch: byte, ds: seq<bytes>): (ms: seq<Msg>)
    ensures |ms| == |ds|
  {
    seq(|ds|, i requires 0 <= i < |ds| => Msg(ch, ds[i]))
  }

  // Written to an unreliable channel, the newest four messages wait to be sent; nothing else
  // changes, and no write is refused for want of room.
  lemma {:induction false} NewestWait(e: Ep, ch: byte, ds: seq<bytes>)
    requires Valid(e) && e.hs.state == Connected && ch < MAX_CHAN && e.layout[ch] == Open(Unreliable)
    requires forall i :: 0 <= i < |ds| ==> |ds[i]| <= MAXMSG
    ensures WriteAll(e, ch, ds) == e.(unrel := Newest(e.unrel + OnChannel(ch, ds), UNREL_TXQ))
    decreases |ds|
  {
    if ds != [] {
      var e1 := Write(e, ch, ds[0]).0;
      var m := Msg(ch, ds[0]);
      assert e1 == e.(unrel := Newest(e.unrel + [m], UNREL_TXQ));
      NewestWait(e1, ch, ds[1..]);
      assert OnChannel(ch, ds) == [m] + OnChannel(ch, ds[1..]);
      NewestTwice(e.unrel, m, OnChannel(ch, ds[1..]));
    } else {
      assert e.unrel + OnChannel(ch, ds) == e.unrel;
    }
  }

  lemma NewestTwice(q: seq<Msg>, m: Msg, ms: seq<Msg>)
    requires |q| <= UNREL_TXQ
    ensures Newest(Newest(q + [m], UNREL_TXQ) + ms, UNREL_TXQ) == Newest(q + ([m] + ms), UNREL_TXQ)
  {
    assert q + ([m] + ms) == q + [m] + ms;
  }

  // ----- the receiving rings -----

  // One unreliable record: its bytes go to the end of the channel's ring if the channel is
  // open and has a place, and nothing else changes at all.
  lemma UnreliableArrives(r: Rx, layout: seq<ChanSlot>, p: Rec)
    requires RxValid(r) && |layout| == MAX_CHAN && p.mt != MT_REL
    ensures var taken := p.chan < MAX_CHAN && layout[p.chan] != Unused && |r.rings[p.chan]| < RECVQ;
            if taken then
              Deliver(r, layout, p) == r.(rings := r.rings[p.chan := r.rings[p.chan] + [Oldest(p.data, MAXMSG)]])
            else Deliver(r, layout, p) == r
  {
  }

  // A reliable record never enters the ring of another channel.
  lemma ReliableSpares(r: Rx, layout: seq<ChanSlot>, p: Rec, c: nat)
    requires RxValid(r) && p.mt == MT_REL && c < MAX_CHAN && p.chan != c
    ensures Deliver(r, layout, p).rings[c] == r.rings[c]
  {
  }

  lemma {:induction false} ProjCons(m: Msg, ms: seq<Msg>, c: nat)
    ensures Proj([m] + ms, c) == (if m.chan == c then [m.data] else []) + Proj(ms, c)
  {
    if ms == [] {
      assert [m] + ms == [m] && [m][..0] == [];
      assert Proj([m], c) == Proj([], c) + if m.chan == c then [m.data] else [];
    } else {
      var front := ms[..|ms| - 1];
      assert ([m] + ms)[..|ms|] == [m] + front;
      ProjCons(m, front, c);
    }
  }

  // Unreliable records fill the ring in order, and those that find it full are lost.
  lemma {:induction false} UnrelFills(r: Rx, layout: seq<ChanSlot>, un: seq<Msg>, c: nat)
    requires RxValid(r) && |layout| == MAX_CHAN && c < MAX_CHAN && AllOk(un)
    requires forall i :: 0 <= i < |un| ==> OnUnreliable(layout, un[i])
    ensures DeliverAll(r, layout, UnrelRecs(un)).rings[c] == Oldest(r.rings[c] + Proj(un, c), RECVQ)
    decreases |un|
  {
    hide Deliver, Proj, Oldest;
    if un != [] {
      var ps := UnrelRecs(un);
      var r1 := Deliver(r, layout, ps[0]);
      assert ps[1..] == UnrelRecs(un[1..]);
      UnrelFills(r1, layout, un[1..], c);
      assert un == [un[0]] + un[1..];
      ProjCons(un[0], un[1..], c);
      var x := if un[0].chan == c then [un[0].data] else [];
      FillOne(r, layout, un[0], c);
      OldestTwice(r.rings[c], x, Proj(un[1..], c));
    } else {
      FillsNone(r.rings[c], c);
    }
  }

  lemma FillOne(r: Rx, layout: seq<ChanSlot>, m: Msg, c: nat)
    requires RxValid(r) && |layout| == MAX_CHAN && c < MAX_CHAN && MsgOk(m) && OnUnreliable(layout, m)
    ensures Deliver(r, layout, Rec(m.chan, MT_UNREL, 0, m.data)).rings[c]
         == Oldest(r.rings[c] + if m.chan == c then [m.data] else [], RECVQ)
  {
    UnreliableArrives(r, layout, Rec(m.chan, MT_UNREL, 0, m.data));
    assert r.rings[c] + [] == r.rings[c];
  }

  lemma OldestTwice(q: seq<bytes>, x: seq<bytes>, y: seq<bytes>)
    requires |q| <= RECVQ && |x| <= 1
    ensures Oldest(Oldest(q + x, RECVQ) + y, RECVQ) == Oldest(q + (x + y), RECVQ)
  {
    assert q + (x + y) == q + x + y;
  }

  lemma {:induction false} RelSpares(r: Rx, layout: seq<ChanSlot>, first: u16, rel: seq<Msg>, c: nat)
    requires RxValid(r) && c < MAX_CHAN && |layout| == MAX_CHAN && layout[c] == Open(Unreliable)
    requires forall i :: 0 <= i < |rel| ==> OnReliable(layout, rel[i])
    ensures DeliverAll(r, layout, RelRecs(first, rel)).rings[c] == r.rings[c]
    decreases |rel|
  {
    if rel != [] {
      var ps := RelRecs(first, rel);
      ReliableSpares(r, layout, ps[0], c);
      assert ps[1..] == RelRecs(Next16(first), rel[1..]);
      RelSpares(Deliver(r, layout, ps[0]), layout, Next16(first), rel[1..], c);
    }
  }

  // So a whole packet: its unreliable messages, in the order packed, as far as there is room.
  lemma PacketFills(r: Rx, layout: seq<ChanSlot>, first: u16, rel: seq<Msg>, un: seq<Msg>, c: nat)
    requires RxValid(r) && c < MAX_CHAN && |layout| == MAX_CHAN && layout[c] == Open(Unreliable) && AllOk(un)
    requires forall i :: 0 <= i < |rel| ==> OnReliable(layout, rel[i])
    requires forall i :: 0 <= i < |un| ==> OnUnreliable(layout, un[i])
    ensures DeliverAll(r, layout, RelRecs(first, rel) + UnrelRecs(un)).rings[c]
         == Oldest(r.rings[c] + Proj(un, c), RECVQ)
  {
    DeliverConcat(r, layout, RelRecs(first, rel), UnrelRecs(un));
    RelSpares(r, layout, first, rel, c);
    UnrelFills(DeliverAll(r, layout, RelRecs(first, rel)), layout, un, c);
  }

  // ----- from one end to the other -----

  lemma HopFills(p: Duo, c: nat) returns (j: nat)
    requires DuoInv(p) && Valid(p.x.ep) && Valid(p.y.ep) && Talks(p.x) && Linked(p.x.ep.hs, p.y.ep.hs)
    requires c < MAX_CHAN && p.x.ep.layout[c] == Open(Unreliable)
    ensures j <= |p.x.ep.unrel| && Hop(p).x.ep.unrel == p.x.ep.unrel[j..] && RxValid(Hop(p).y.ep.rx)
    ensures Hop(p).y.ep.rx.rings[c] == Oldest(p.y.ep.rx.rings[c] + Proj(p.x.ep.unrel[..j], c), RECVQ)
  {
    hide Hop, Flow, Linked, Proj, Oldest;
    HopKeepsInv(p);
    if ControlDue(p.x.ep.hs) {
      HopFeeds(p);
      ControlFills(p, c);
      j := 0;
    } else {
      DataFills(p, c);
      j := UnrelOut(p.x.ep.tx, p.x.ep.unrel, MTU);
    }
  }

  lemma ControlFills(p: Duo, c: nat)
    requires Valid(p.x.ep) && Valid(p.y.ep) && ControlDue(p.x.ep.hs) && c < MAX_CHAN
    requires Hop(p).y.ep.rx == p.y.ep.rx
    ensures Hop(p).x.ep.unrel == p.x.ep.unrel[0..]
    ensures Hop(p).y.ep.rx.rings[c] == Oldest(p.y.ep.rx.rings[c] + Proj(p.x.ep.unrel[..0], c), RECVQ)
  {
    assert p.y.ep.rx.rings[c] + [] == p.y.ep.rx.rings[c];
  }

  lemma DataFills(p: Duo, c: nat)
    requires DuoInv(p) && Valid(p.x.ep) && Valid(p.y.ep) && Talks(p.x) && Linked(p.x.ep.hs, p.y.ep.hs)
    requires c < MAX_CHAN && p.x.ep.layout[c] == Open(Unreliable) && !ControlDue(p.x.ep.hs)
    ensures var j := UnrelOut(p.x.ep.tx, p.x.ep.unrel, MTU);
            && Hop(p).x.ep.unrel == p.x.ep.unrel[j..]
            && Hop(p).y.ep.rx.rings[c] == Oldest(p.y.ep.rx.rings[c] + Proj(p.x.ep.unrel[..j], c), RECVQ)
  {
    hide DeliverAll, ParseRecs, ChanOk, Roomy, Linked, Proj, Oldest, RelRecs, UnrelRecs;
    DataHopMoves(p);
    var d := DataOut(p.x, MTU);
    DataPacketReads(p.x.ep, MTU);
    var j := UnrelOut(p.x.ep.tx, p.x.ep.unrel, MTU);
    assert AllOk(p.x.ep.unrel[..j]);
    PacketFills(p.y.ep.rx, p.x.ep.layout, Plus16(p.x.ep.tx.base, p.x.ep.tx.sent), RelOut(p.x.ep.tx, MTU),
                p.x.ep.unrel[..j], c);
  }

  // Main result: on a connected link, everything waiting to be sent on an unreliable channel
  // becomes readable at the peer in the order written, as far as its ring has places.
  lemma {:induction false} DrainFills(p: Duo, c: nat)
    requires DuoInv(p) && Valid(p.x.ep) && Valid(p.y.ep) && Linked(p.x.ep.hs, p.y.ep.hs)
    requires c < MAX_CHAN && p.x.ep.layout[c] == Open(Unreliable)
    ensures var q := Drain(p);
            && q.x.ep.unrel == []
            && RxValid(q.y.ep.rx)
            && q.y.ep.rx.rings[c] == Oldest(p.y.ep.rx.rings[c] + Proj(p.x.ep.unrel, c), RECVQ)
    decreases Backlog(p.x.ep)
  {
    hide Linked, Hop, Flow, Proj, Oldest;
    if Talks(p.x) {
      HopKeepsInv(p);
      HopKeepsLink(p);
      var j := HopFills(p, c);
      var q := Hop(p);
      HopLayout(p);
      DrainFills(q, c);
      FillsAdd(p.y.ep.rx.rings[c], p.x.ep.unrel, j, c);
    } else {
      QuietIsSent(p);
      FillsNone(p.y.ep.rx.rings[c], c);
    }
  }

  lemma HopLayout(p: Duo)
    requires Valid(p.x.ep) && Valid(p.y.ep) && Talks(p.x)
    ensures Hop(p).x.ep.layout == p.x.ep.layout
  {
    hide DataPacket, TxSend, UnrelOut;
  }

  lemma QuietIsSent(p: Duo)
    requires !Talks(p.x) && Linked(p.x.ep.hs, p.y.ep.hs)
    ensures p.x.ep.unrel == []
  {
  }

  lemma FillsNone(q: seq<bytes>, c: nat)
    requires |q| <= RECVQ
    ensures Oldest(q + Proj([], c), RECVQ) == q
  {
    assert q + [] == q;
  }

  lemma FillsAdd(q: seq<bytes>, ms: seq<Msg>, j: nat, c: nat)
    requires |q| <= RECVQ && j <= |ms|
    ensures Oldest(Oldest(q + Proj(ms[..j], c), RECVQ) + Proj(ms[j..], c), RECVQ) == Oldest(q + Proj(ms, c), RECVQ)
  {
    ProjSplit(ms, j, c);
    var x, y := Proj(ms[..j], c), Proj(ms[j..], c);
    assert q + (x + y) == q + x + y;
  }

  lemma {:induction false} ProjSplit(ms: seq<Msg>, j: nat, c: nat)
    requires j <= |ms|
    ensures Proj(ms, c) == Proj(ms[..j], c) + Proj(ms[j..], c)
    decreases |ms|
  {
    if j == |ms| {
      assert ms[..j] == ms && ms[j..] == [];
    } else {
      var last := |ms| - 1;
      ProjSplit(ms[..last], j, c);
      ProjLast(ms, c);
      ProjLast(ms[j..], c);
      assert ms[..last][..j] == ms[..j] && ms[..last][j..] == ms[j..][..|ms[j..]| - 1];
    }
  }

  lemma ProjLast(ms: seq<Msg>, c: nat)
    requires ms != []
    ensures var m := ms[|ms| - 1]; Proj(ms, c) == Proj(ms[..|ms| - 1], c) + if m.chan == c then [m.data] else []
  {
  }

  // And with the ring drained and nothing waiting, what is written arrives: all of it up to
  // four messages, and the newest four of more.
  lemma WrittenArrives(p: Duo, ch: byte, ds: seq<bytes>)
    requires DuoInv(p) && Valid(p.x.ep) && Valid(p.y.ep) && Linked(p.x.ep.hs, p.y.ep.hs)
    requires ch < MAX_CHAN && p.x.ep.layout[ch] == Open(Unreliable) && p.x.ep.unrel == [] && p.y.ep.rx.rings[ch] == []
    requires forall i :: 0 <= i < |ds| ==> |ds[i]| <= MAXMSG
    ensures var q := p.(x := p.x.(ep := WriteAll(p.x.ep, ch, ds)));
            DuoInv(q) && RxValid(Drain(q).y.ep.rx) && Drain(q).y.ep.rx.rings[ch] == Newest(ds, UNREL_TXQ)
  {
    hide Flow, Proj, WriteAll, Drain, OnChannel, TxValid, RxValid;
    NewestWait(p.x.ep, ch, ds);
    NewestOfAll(ch, ds);
    var ds' := Newest(ds, UNREL_TXQ);
    QueueKeepsFlow(p, ch, ds');
    QueuedArrives(p.(x := p.x.(ep := p.x.ep.(unrel := OnChannel(ch, ds')))), ch, ds');
  }

  lemma NewestOfAll(ch: byte, ds: seq<bytes>)
    ensures Newest([] + OnChannel(ch, ds), UNREL_TXQ) == OnChannel(ch, Newest(ds, UNREL_TXQ))
  {
    assert [] + OnChannel(ch, ds) == OnChannel(ch, ds);
  }

  lemma QueuedArrives(q: Duo, ch: byte, ds: seq<bytes>)
    requires DuoInv(q) && Valid(q.x.ep) && Valid(q.y.ep) && Linked(q.x.ep.hs, q.y.ep.hs) && |ds| <= UNREL_TXQ
    requires ch < MAX_CHAN && q.x.ep.layout[ch] == Open(Unreliable) && q.y.ep.rx.rings[ch] == []
    requires q.x.ep.unrel == OnChannel(ch, ds)
    ensures RxValid(Drain(q).y.ep.rx) && Drain(q).y.ep.rx.rings[ch] == ds
  {
    hide Flow, Proj, Drain, Linked, OnChannel;
    DrainFills(q, ch);
    ProjOnChannel(ch, ds);
    assert [] + ds == ds;
  }

  lemma QueueKeepsFlow(p: Duo, ch: byte, ds: seq<bytes>)
    requires DuoInv(p) && Valid(p.x.ep) && ch < MAX_CHAN && p.x.ep.layout[ch] == Open(Unreliable) && |ds| <= UNREL_TXQ
    requires forall i :: 0 <= i < |ds| ==> |ds[i]| <= MAXMSG
    ensures var q := p.(x := p.x.(ep := p.x.ep.(unrel := OnChannel(ch, ds)))); DuoInv(q) && Valid(q.x.ep)
  {
  }

  lemma {:induction false} ProjOnChannel(ch: byte, ds: seq<bytes>)
    ensures Proj(OnChannel(ch, ds), ch) == ds
  {
    if ds != [] {
      var front := ds[..|ds| - 1];
      assert OnChannel(ch, ds)[..|ds| - 1] == OnChannel(ch, front);
      ProjOnChannel(ch, front);
    } else {
      assert OnChannel(ch, ds) == [];
    }
  }

  // Reading takes exactly the oldest message of the ring, if the reader's buffer holds it.
  lemma ReadTakesOldest(r: Rx, ch: nat, buflen: nat)
    requires RxValid(r)
    ensures var (r', got) := Read(r, ch, buflen);
            if ch < MAX_CHAN && r.rings[ch] != [] && |r.rings[ch][0]| <= buflen
            then got.Got? && r == r'.(rings := r'.rings[ch := [got.data] + r'.rings[ch]])
            else r' == r && got == (if ch < MAX_CHAN && r.rings[ch] != [] then TooBig else Nothing)
  {
    if ch < MAX_CHAN && r.rings[ch] != [] && |r.rings[ch][0]| <= buflen {
      var (r', got) := Read(r, ch, buflen);
      assert [got.data] + r'.rings[ch] == r.rings[ch];
      assert r'.rings[ch := r.rings[ch]] == r.rings;
    }
  }

  // ----- nothing is made up -----

  // Everything on its way to, held for or read by y's application on an unreliable channel.
  ghost predicate OnlyFrom(x: Side, y: Side, net: set<Datagram>, w: set<Msg>) {
    && (forall i :: 0 <= i < |x.ep.unrel| ==> x.ep.unrel[i] in w)
    && (forall d :: d in net ==> Carried(d, w))
    && |y.ep.layout| == MAX_CHAN && RxValid(y.ep.rx) && |y.taken.read| == MAX_CHAN
    && forall c :: 0 <= c < MAX_CHAN && y.ep.layout[c] == Open(Unreliable) ==>
         HeldFrom(y.ep.rx.rings[c], c, w) && HeldFrom(y.taken.read[c], c, w)
  }

  ghost predicate Carried(d: Datagram, w: set<Msg>) {
    AllOk(d.un) && forall i :: 0 <= i < |d.un| ==> d.un[i] in w
  }

  ghost predicate HeldFrom(q: seq<bytes>, c: byte, w: set<Msg>) {
    forall i :: 0 <= i < |q| ==> Msg(c, q[i]) in w
  }

  // What an action writes, if the call takes it.
  function Writes(x: Side, act: Act): set<Msg>
    requires Valid(x.ep)
  {
    match act
    case DWrite(ch, data) => if Write(x.ep, ch, data).1 >= 0 && ch < MAX_CHAN then {Msg(ch, data)} else {}
    case _ => {}
  }

  lemma {:induction false} ProjFrom(ms: seq<Msg>, c: byte, w: set<Msg>)
    requires forall i :: 0 <= i < |ms| ==> ms[i] in w
    ensures HeldFrom(Proj(ms, c), c, w)
  {
    if ms != [] {
      ProjFrom(ms[..|ms| - 1], c, w);
    }
  }

  // An action of the writer.
  lemma WriterKeepsOnly(x: Side, y: Side, net: set<Datagram>, w: set<Msg>, act: Act)
    requires Valid(x.ep) && OnlyFrom(x, y, net, w)
    ensures var (x', sent) := Act1(x, act); OnlyFrom(x', y, net + sent, w + Writes(x, act))
  {
    hide Feed, Service, SendNext, Read, HeldFrom;
    var (x', sent) := Act1(x, act);
    var w' := w + Writes(x, act);
    forall c | 0 <= c < MAX_CHAN && y.ep.layout[c] == Open(Unreliable)
      ensures HeldFrom(y.ep.rx.rings[c], c, w') && HeldFrom(y.taken.read[c], c, w') {
      MoreWritten(y.ep.rx.rings[c], c, w, w');
      MoreWritten(y.taken.read[c], c, w, w');
    }
    match act
    case DSend(buflen) => SendsQueued(x, buflen, w);
    case DRecv(d) => FeedCases(x.ep, d.pkt);
    case DService(now) => ServiceSpares(x.ep, now);
    case _ =>
  }

  lemma MoreWritten(q: seq<bytes>, c: byte, w: set<Msg>, w': set<Msg>)
    requires HeldFrom(q, c, w) && w <= w'
    ensures HeldFrom(q, c, w')
  {
  }

  lemma ServiceSpares(e: Ep, now: u32)
    ensures var e' := Service(e, now).0;
            e'.unrel == e.unrel && e'.layout == e.layout && e'.rx.rings == e.rx.rings
  {
  }

  lemma SendsQueued(x: Side, buflen: nat, w: set<Msg>)
    requires Valid(x.ep) && forall i :: 0 <= i < |x.ep.unrel| ==> x.ep.unrel[i] in w
    ensures var (x', sent) := DoSend(x, buflen);
            && (forall i :: 0 <= i < |x'.ep.unrel| ==> x'.ep.unrel[i] in w)
            && x'.ep.layout == x.ep.layout && x'.ep.rx.rings == x.ep.rx.rings && x'.taken == x.taken
            && forall d :: d in sent ==> Carried(d, w)
  {
    hide DataPacket, TxSend, RelOut;
  }

  // An action of the reader.
  lemma ReaderKeepsOnly(x: Side, y: Side, net: set<Datagram>, w: set<Msg>, act: Act)
    requires Flow(x, y, net) && Valid(y.ep) && OnlyFrom(x, y, net, w) && Enabled(y, act, net)
    ensures OnlyFrom(x, Act1(y, act).0, net, w)
  {
    hide Feed, Service, SendNext, Flow;
    match act
    case DRecv(d) => RecvOnly(x, y, net, w, d);
    case DSend(buflen) => SendSpares(y, buflen);
    case DService(now) => ServiceSpares(y.ep, now);
    case DRead(ch, buflen) => ReadOnly(y, ch, buflen, w);
    case _ =>
  }

  lemma SendSpares(y: Side, buflen: nat)
    requires Valid(y.ep)
    ensures var y' := DoSend(y, buflen).0;
            y'.ep.layout == y.ep.layout && y'.ep.rx.rings == y.ep.rx.rings && y'.taken == y.taken
  {
    hide DataPacket, TxSend, RelOut, UnrelOut;
  }

  lemma ReadOnly(y: Side, ch: nat, buflen: nat, w: set<Msg>)
    requires Valid(y.ep) && |y.taken.read| == MAX_CHAN
    requires forall c :: 0 <= c < MAX_CHAN && y.ep.layout[c] == Open(Unreliable) ==>
               HeldFrom(y.ep.rx.rings[c], c, w) && HeldFrom(y.taken.read[c], c, w)
    ensures var y' := DoRead(y, ch, buflen);
            && y'.ep.layout == y.ep.layout && RxValid(y'.ep.rx) && |y'.taken.read| == MAX_CHAN
            && forall c :: 0 <= c < MAX_CHAN && y.ep.layout[c] == Open(Unreliable) ==>
                 HeldFrom(y'.ep.rx.rings[c], c, w) && HeldFrom(y'.taken.read[c], c, w)
  {
  }

  lemma RecvOnly(x: Side, y: Side, net: set<Datagram>, w: set<Msg>, d: Datagram)
    requires Flow(x, y, net) && Valid(y.ep) && OnlyFrom(x, y, net, w) && d in net
    ensures OnlyFrom(x, DoRecv(y, d), net, w)
  {
    hide DeliverAll, ParseRecs, RelRecs, UnrelRecs, ChanOk, HeldFrom, Feed;
    FeedCases(y.ep, d.pkt);
    assert Honest(d, x.out, x.taken.rx, x.ep.layout) && Carried(d, w);
    if DataFed(y.ep, d.pkt) {
      FedOnly(y.ep.rx, y.ep.layout, x.out, d, x.taken.rx, w);
    }
  }

  lemma FedOnly(r: Rx, layout: seq<ChanSlot>, out: Sent, d: Datagram, rx: nat, w: set<Msg>)
    requires RxValid(r) && |layout| == MAX_CHAN && Honest(d, out, rx, layout) && d.pkt[4] == PKT_DATA && Carried(d, w)
    requires forall i :: 0 <= i < |out.msgs| ==> OnReliable(layout, out.msgs[i])
    requires forall c :: 0 <= c < MAX_CHAN && layout[c] == Open(Unreliable) ==> HeldFrom(r.rings[c], c, w)
    ensures var r' := DeliverAll(r, layout, ParseRecs(d.pkt[HDR..]));
            RxValid(r') && forall c :: 0 <= c < MAX_CHAN && layout[c] == Open(Unreliable) ==> HeldFrom(r'.rings[c], c, w)
  {
    hide DeliverAll, ParseRecs, RelRecs, UnrelRecs, Proj;
    forall c | 0 <= c < MAX_CHAN && layout[c] == Open(Unreliable)
      ensures HeldFrom(DeliverAll(r, layout, ParseRecs(d.pkt[HDR..])).rings[c], c, w) {
      PacketFills(r, layout, Low(d.first), d.rel, d.un, c);
      ProjFrom(d.un, c, w);
    }
  }

  // What x's application wrote in the first n steps of a run.
  ghost function Written(run: seq<Sys>, steps: seq<Label>, byA: bool, n: nat): set<Msg>
    requires n <= |steps| && |run| == |steps| + 1
  {
    if n == 0 then {}
    else
      var before := Written(run, steps, byA, n - 1);
      var x := if byA then run[n - 1].a else run[n - 1].b;
      if steps[n - 1].byA == byA && Valid(x.ep) then before + Writes(x, steps[n - 1].act) else before
  }

  lemma {:induction false} RunKeepsOnly(run: seq<Sys>, steps: seq<Label>, layout: seq<ChanSlot>, idA: u32, idB: u32, n: nat)
    requires IsRun(run, steps) && Init(run[0], layout, idA, idB) && n <= |steps|
    ensures OnlyFrom(run[n].a, run[n].b, run[n].ab, Written(run, steps, true, n))
    ensures OnlyFrom(run[n].b, run[n].a, run[n].ba, Written(run, steps, false, n))
  {
    hide OnlyFrom, Flow, Act1;
    if n == 0 {
      StartsFromNone(run[0], layout, idA, idB);
    } else {
      RunKeepsOnly(run, steps, layout, idA, idB, n - 1);
      RunKeepsInv(run, steps, layout, idA, idB, n - 1);
      var s, l := run[n - 1], steps[n - 1];
      assert Next(s, run[n], l.byA, l.act);
      if l.byA {
        WriterKeepsOnly(s.a, s.b, s.ab, Written(run, steps, true, n - 1), l.act);
        ReaderKeepsOnly(s.b, s.a, s.ba, Written(run, steps, false, n - 1), l.act);
      } else {
        WriterKeepsOnly(s.b, s.a, s.ba, Written(run, steps, false, n - 1), l.act);
        ReaderKeepsOnly(s.a, s.b, s.ab, Written(run, steps, true, n - 1), l.act);
      }
    }
  }

  lemma StartsFromNone(s: Sys, layout: seq<ChanSlot>, idA: u32, idB: u32)
    requires Init(s, layout, idA, idB)
    ensures OnlyFrom(s.a, s.b, s.ab, {}) && OnlyFrom(s.b, s.a, s.ba, {})
  {
  }

  // Main result: over any drops, repeats and reordering, whatever an application reads on an
  // unreliable channel its peer has written to that channel before.
  lemma ReadWasWritten(run: seq<Sys>, steps: seq<Label>, layout: seq<ChanSlot>, idA: u32, idB: u32, n: nat, byA: bool,
                       c: byte, i: nat)
    requires IsRun(run, steps) && Init(run[0], layout, idA, idB) && n <= |steps|
    requires c < MAX_CHAN && layout[c] == Open(Unreliable)
    requires var y := if byA then run[n].b else run[n].a; |y.taken.read| == MAX_CHAN && i < |y.taken.read[c]|
    ensures var y := if byA then run[n].b else run[n].a; Msg(c, y.taken.read[c][i]) in Written(run, steps, byA, n)
  {
    hide Written;
    RunKeepsOnly(run, steps, layout, idA, idB, n);
    LayoutStays(run, steps, layout, idA, idB, n);
    var y := if byA then run[n].b else run[n].a;
    assert HeldFrom(y.taken.read[c], c, Written(run, steps, byA, n));
  }

  lemma {:induction false} LayoutStays(run: seq<Sys>, steps: seq<Label>, layout: seq<ChanSlot>, idA: u32, idB: u32, n: nat)
    requires IsRun(run, steps) && Init(run[0], layout, idA, idB) && n <= |steps|
    ensures run[n].a.ep.layout == layout && run[n].b.ep.layout == layout
  {
    hide Act1;
    if n > 0 {
      LayoutStays(run, steps, layout, idA, idB, n - 1);
      var s, l := run[n - 1], steps[n - 1];
      assert Next(s, run[n], l.byA, l.act);
      ActLayout(if l.byA then s.a else s.b, l.act);
    }
  }

  lemma ActLayout(x: Side, act: Act)
    requires Valid(x.ep)
    ensures Act1(x, act).0.ep.layout == x.ep.layout
  {
    hide Feed, Service, SendNext;
    match act
    case DRecv(d) => FeedCases(x.ep, d.pkt);
    case DSend(buflen) => SendSpares(x, buflen);
    case DService(now) => ServiceSpares(x.ep, now);
    case _ =>
  }
}
