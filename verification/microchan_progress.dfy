// Progress of the microchan transfer: a retransmit timeout followed by one lossless
// exchange delivers and acknowledges the whole window.
module MicrochanProgress {
  import opened Bytes
  import opened MicrochanMachine
  import opened MicrochanSession

  // The system seen from one side: x writes, y reads.
  datatype Duo = Duo(x: Side, y: Side, xy: set<Datagram>, yx: set<Datagram>)

  function Flip(p: Duo): Duo {
    Duo(p.y, p.x, p.yx, p.xy)
  }

  ghost predicate DuoInv(p: Duo) {
    Flow(p.x, p.y, p.xy) && Flow(p.y, p.x, p.yx)
  }

  // Both ends are up and address each other.
  predicate Linked(h: Handshake, k: Handshake) {
    && h.state == Connected && k.state == Connected
    && h.remoteId == k.localId && k.remoteId == h.localId
  }

  predicate Talks(x: Side) {
    ControlDue(x.ep.hs) || !Quiet(x.ep)
  }

  function Outgoing(x: Side): Datagram
    requires Valid(x.ep) && Talks(x)
  {
    if ControlDue(x.ep.hs) then ControlOut(x) else DataOut(x, MTU)
  }

  // One packet pulled from x with a full-size buffer and fed to y.
  function Hop(p: Duo): Duo
    requires Valid(p.x.ep) && Valid(p.y.ep) && Talks(p.x)
  {
    var d := Outgoing(p.x);
    Duo(DoSend(p.x, MTU).0, DoRecv(p.y, d), p.xy + {d}, p.yx)
  }

  lemma HopSends(p: Duo)
    requires DuoInv(p) && Valid(p.x.ep) && Valid(p.y.ep) && Talks(p.x)
    ensures DoSend(p.x, MTU).1 == {Outgoing(p.x)}
    ensures Timely(p.y, Outgoing(p.x))
  {
    var d := Outgoing(p.x);
    assert d.ack == p.x.taken.rx && d.first >= p.x.out.base;
    if ControlDue(p.x.ep.hs) {
    } else {
      DataPacketReads(p.x.ep, MTU);
    }
  }

  lemma HopKeepsInv(p: Duo)
    requires DuoInv(p) && Valid(p.x.ep) && Valid(p.y.ep) && Talks(p.x)
    ensures DuoInv(Hop(p)) && Valid(Hop(p).x.ep) && Valid(Hop(p).y.ep)
    ensures Backlog(Hop(p).x.ep) < Backlog(p.x.ep)
  {
    var d := Outgoing(p.x);
    HopSends(p);
    ActKeepsFlows(p.x, p.y, p.xy, p.yx, DSend(MTU));
    var x := DoSend(p.x, MTU).0;
    ActKeepsFlows(p.y, x, p.yx, p.xy + {d}, DRecv(d));
    var q := Hop(p);
    FlowValid(q.x, q.y, q.xy, q.yx);
    FlowValid(q.y, q.x, q.yx, q.xy);
    assert SendNext(p.x.ep, MTU).1 == d.pkt != [];
    SendNextLowersBacklog(p.x.ep, MTU);
  }

  // Everything x has to say, delivered to y without loss.
  function Drain(p: Duo): Duo
    requires DuoInv(p) && Valid(p.x.ep) && Valid(p.y.ep)
    decreases Backlog(p.x.ep)
  {
    if !Talks(p.x) then p
    else
      HopKeepsInv(p);
      Drain(Hop(p))
  }

  // ----- what a hop does to the link -----

  lemma ControlReads(h: Handshake)
    requires ControlDue(h)
    ensures var p := SendControl(h).1;
            && HDR <= |p| && p[4] in {PKT_SYN, PKT_SYNACK, PKT_ACK}
            && (p[4] != PKT_ACK ==> |p| == HDR + 4 && Rd32(p, HDR) == h.localId)
            && SendControl(h).0.state == h.state
            && SendControl(h).0.localId == h.localId && SendControl(h).0.remoteId == h.remoteId
            && (p[4] == PKT_SYN ==> h.sendSyn) && (p[4] == PKT_SYNACK ==> h.sendSynack)
  {
    var p := SendControl(h).1;
    if |p| == HDR + 4 {
      assert p[HDR..HDR + 4] == Wr32(h.localId);
      ReadBack32(p, HDR, h.localId);
    }
  }

  lemma HopKeepsLink(p: Duo)
    requires Valid(p.x.ep) && Valid(p.y.ep) && Talks(p.x) && Linked(p.x.ep.hs, p.y.ep.hs)
    ensures Linked(Hop(p).x.ep.hs, Hop(p).y.ep.hs)
  {
    if ControlDue(p.x.ep.hs) {
      ControlReads(p.x.ep.hs);
    } else {
      DataPacketReads(p.x.ep, MTU);
    }
  }

  lemma HopFeeds(p: Duo)
    requires Valid(p.x.ep) && Valid(p.y.ep) && Talks(p.x) && Linked(p.x.ep.hs, p.y.ep.hs)
    ensures DataFed(p.y.ep, Outgoing(p.x).pkt) <==> !ControlDue(p.x.ep.hs)
    ensures ControlDue(p.x.ep.hs) ==>
              Hop(p).x.ep.tx == p.x.ep.tx && Hop(p).y.ep.rx == p.y.ep.rx
              && Hop(p).x.out == p.x.out && Hop(p).y.taken == p.y.taken
              && Hop(p).x.ep.rx == p.x.ep.rx && Hop(p).y.ep.tx == p.y.ep.tx
              && Hop(p).y.out == p.y.out && Hop(p).x.taken == p.x.taken
  {
    FeedCases(p.y.ep, Outgoing(p.x).pkt);
    if ControlDue(p.x.ep.hs) {
      ControlReads(p.x.ep.hs);
    } else {
      DataPacketReads(p.x.ep, MTU);
    }
  }

  // ----- delivery of the window -----

  // y, standing at message rx, has ring space for everything x has written and y has not
  // consumed.
  ghost predicate Roomy(r: Rx, rx: nat, msgs: seq<Msg>, layout: seq<ChanSlot>) {
    && RxValid(r) && |layout| == MAX_CHAN && r.next == Low(rx)
    && forall c :: 0 <= c < MAX_CHAN && layout[c] == Open(Reliable) ==>
         |r.rings[c]| + (|msgs| - rx) <= RECVQ
  }

  function Later(rx: nat, x: nat): nat {
    if x > rx then x else rx
  }

  lemma AdvanceOne(r: Rx, rx: nat, msgs: seq<Msg>, layout: seq<ChanSlot>, x: nat)
    requires Roomy(r, rx, msgs, layout)
    requires x <= rx <= x + WINDOW && x < |msgs| && OnReliable(layout, msgs[x])
    ensures Roomy(Deliver(r, layout, RelRec(x, msgs[x])), Later(rx, x + 1), msgs, layout)
  {
    LowDistinct(x, rx);
    LowNext(rx);
  }

  // With room, a run of records that starts no later than the next one wanted is consumed
  // to its end.
  lemma {:induction false} DeliverAdvances(r: Rx, rx: nat, msgs: seq<Msg>, layout: seq<ChanSlot>,
                                           x: nat, n: nat)
    requires Roomy(r, rx, msgs, layout)
    requires x <= rx <= x + WINDOW && x + n <= |msgs|
    requires forall i :: 0 <= i < |msgs| ==> OnReliable(layout, msgs[i])
    ensures Roomy(DeliverAll(r, layout, RelRecs(Low(x), msgs[x..x + n])), Later(rx, x + n), msgs, layout)
    decreases n
  {
    var ps := RelRecs(Low(x), msgs[x..x + n]);
    if n > 0 {
      AdvanceOne(r, rx, msgs, layout, x);
      RelHead(msgs, x, n);
      assert ps[1..] == RelRecs(Low(x + 1), msgs[x + 1..x + 1 + (n - 1)]);
      DeliverAdvances(Deliver(r, layout, ps[0]), Later(rx, x + 1), msgs, layout, x + 1, n - 1);
    }
  }

  // Any reliable record owes the peer an acknowledgement, and none is forgotten.
  lemma {:induction false} AckSticks(r: Rx, layout: seq<ChanSlot>, ps: seq<Rec>)
    requires RxValid(r)
    requires r.ackPending || (ps != [] && ps[0].mt == MT_REL)
    ensures DeliverAll(r, layout, ps).ackPending
    decreases |ps|
  {
    if ps != [] {
      AckSticks(Deliver(r, layout, ps[0]), layout, ps[1..]);
    }
  }

  lemma {:induction false} UnrelKeepsRoom(r: Rx, rx: nat, msgs: seq<Msg>, layout: seq<ChanSlot>,
                                          un: seq<Msg>)
    requires Roomy(r, rx, msgs, layout)
    requires forall i :: 0 <= i < |un| ==> OnUnreliable(layout, un[i])
    ensures Roomy(DeliverAll(r, layout, UnrelRecs(un)), rx, msgs, layout)
    decreases |un|
  {
    if un != [] {
      assert UnrelRecs(un)[1..] == UnrelRecs(un[1..]);
      UnrelKeepsRoom(Deliver(r, layout, UnrelRecs(un)[0]), rx, msgs, layout, un[1..]);
    }
  }

  // A data packet read while the window fits: the reader ends no earlier than its last message.
  lemma PacketAdvances(r: Rx, rx: nat, out: Sent, layout: seq<ChanSlot>, d: Datagram, ackd: nat)
    requires Roomy(r, rx, out.msgs, layout)
    requires Honest(d, out, ackd, layout) && d.pkt[4] == PKT_DATA
    requires d.first <= rx <= d.first + WINDOW
    requires forall i :: 0 <= i < |out.msgs| ==> OnReliable(layout, out.msgs[i])
    ensures var r', rx' := DeliverAll(r, layout, ParseRecs(d.pkt[HDR..])), Later(rx, d.first + |d.rel|);
            && rx' == rx + Dist(r'.next, r.next)
            && Roomy(r', rx', out.msgs, layout)
            && (r.ackPending || d.rel != [] ==> r'.ackPending)
  {
    var ps, us, rx' := RelRecs(Low(d.first), d.rel), UnrelRecs(d.un), Later(rx, d.first + |d.rel|);
    DeliverConcat(r, layout, ps, us);
    DeliverAdvances(r, rx, out.msgs, layout, d.first, |d.rel|);
    UnrelKeepsRoom(DeliverAll(r, layout, ps), rx', out.msgs, layout, d.un);
    LowDist(rx', rx);
    if r.ackPending || d.rel != [] {
      AckSticks(r, layout, ps + us);
    }
  }

  // What a data hop changes: the writer's cursor, and the reader by the packet's records.
  lemma DataHopMoves(p: Duo)
    requires Valid(p.x.ep) && Valid(p.y.ep) && Talks(p.x) && Linked(p.x.ep.hs, p.y.ep.hs) && !ControlDue(p.x.ep.hs)
    ensures var q, d := Hop(p), Outgoing(p.x);
            && d == DataOut(p.x, MTU) && |d.pkt| >= HDR && d.pkt[4] == PKT_DATA && d.ack == p.x.taken.rx
            && q.x.out == p.x.out && q.x.out.base + q.x.ep.tx.sent == d.first + |d.rel|
            && q.y.ep.rx == DeliverAll(p.y.ep.rx, p.y.ep.layout, ParseRecs(d.pkt[HDR..]))
            && q.y.taken.rx == p.y.taken.rx + Dist(q.y.ep.rx.next, p.y.ep.rx.next)
  {
    hide DeliverAll, ParseRecs, RelRecs, UnrelRecs;
    HopFeeds(p);
    FeedCases(p.y.ep, Outgoing(p.x).pkt);
    DataPacketReads(p.x.ep, MTU);
  }

  // A data hop while y can take the window.
  lemma DataHop(p: Duo)
    requires DuoInv(p) && Valid(p.x.ep) && Valid(p.y.ep) && Talks(p.x)
    requires Linked(p.x.ep.hs, p.y.ep.hs) && !ControlDue(p.x.ep.hs)
    requires Roomy(p.y.ep.rx, p.y.taken.rx, p.x.out.msgs, p.x.ep.layout)
    requires p.x.out.base + p.x.ep.tx.sent <= p.y.taken.rx
    ensures var q, d := Hop(p), Outgoing(p.x);
            && q.x.out == p.x.out
            && q.x.out.base + q.x.ep.tx.sent == d.first + |d.rel| <= q.y.taken.rx
            && Roomy(q.y.ep.rx, q.y.taken.rx, p.x.out.msgs, p.x.ep.layout)
            && (p.y.ep.rx.ackPending || d.rel != [] ==> q.y.ep.rx.ackPending)
  {
    hide DeliverAll, ParseRecs, Hop, Outgoing, Roomy, Honest, OnReliable, OnUnreliable, ChanOk, Linked;
    DataHopMoves(p);
    DataIsHonest(p.x, MTU);
    assert DataOut(p.x, MTU).first == p.x.out.base + p.x.ep.tx.sent;
    PacketAdvances(p.y.ep.rx, p.y.taken.rx, p.x.out, p.x.ep.layout, DataOut(p.x, MTU), p.x.taken.rx);
  }

  // ----- draining x into y -----

  // What holds while x, having put its whole window back to unsent, sends it to y again.
  ghost predicate Resending(p: Duo) {
    && DuoInv(p) && Valid(p.x.ep) && Valid(p.y.ep)
    && Linked(p.x.ep.hs, p.y.ep.hs)
    && Roomy(p.y.ep.rx, p.y.taken.rx, p.x.out.msgs, p.x.ep.layout)
    && p.x.out.base + p.x.ep.tx.sent <= p.y.taken.rx
    && (p.x.ep.tx.sent > 0 ==> p.y.ep.rx.ackPending)
  }

  lemma HopKeepsResending(p: Duo)
    requires Resending(p) && Talks(p.x)
    ensures Resending(Hop(p)) && Hop(p).x.out.msgs == p.x.out.msgs
  {
    HopKeepsInv(p);
    HopKeepsLink(p);
    HopFeeds(p);
    if !ControlDue(p.x.ep.hs) {
      DataHop(p);
    }
  }

  lemma {:induction false} DrainResends(p: Duo)
    requires Resending(p)
    ensures var q := Drain(p);
            && Resending(q) && !Talks(q.x) && q.x.out.msgs == p.x.out.msgs
    decreases Backlog(p.x.ep)
  {
    if Talks(p.x) {
      HopKeepsInv(p);
      HopKeepsResending(p);
      DrainResends(Hop(p));
    }
  }

  // ----- draining the acknowledgement back -----

  // y, the reader, has everything x wrote; it still owes an acknowledgement or x has it.
  ghost predicate Acking(p: Duo, msgs: seq<Msg>) {
    && DuoInv(p) && Valid(p.x.ep) && Valid(p.y.ep)
    && Linked(p.x.ep.hs, p.y.ep.hs)
    && p.y.out.msgs == msgs && p.x.taken.rx == |msgs|
    && (p.x.ep.rx.ackPending || p.y.out.base == |msgs|)
  }

  lemma HopKeepsAcking(p: Duo, msgs: seq<Msg>)
    requires Acking(p, msgs) && Talks(p.x)
    ensures Acking(Hop(p), msgs)
  {
    HopKeepsInv(p);
    HopKeepsLink(p);
    HopFeeds(p);
    if !ControlDue(p.x.ep.hs) {
      var d := Outgoing(p.x);
      FeedCases(p.y.ep, d.pkt);
      DataPacketReads(p.x.ep, MTU);
      AckMoves(p.y.ep.tx, p.y.out, p.y.ep.layout, p.y.ep.clk.now, d.ack);
    }
  }

  lemma {:induction false} DrainAcks(p: Duo, msgs: seq<Msg>)
    requires Acking(p, msgs)
    ensures Acking(Drain(p), msgs) && Drain(p).y.out.base == |msgs|
    decreases Backlog(p.x.ep)
  {
    if Talks(p.x) {
      HopKeepsInv(p);
      HopKeepsAcking(p, msgs);
      DrainAcks(Hop(p), msgs);
    }
  }

  // ----- the timeout -----

  // Data is overdue, the peer is not given up on, and the connection is not idle.
  predicate TimeoutDue(e: Ep, now: u32) {
    && e.hs.state == Connected && Due(e.tx, now)
    && e.tx.attempts < RT_ATTEMPTS
    && Minus32(now, e.clk.lastRecv) <= IDLE_MS
  }

  function Timeout(p: Duo, now: u32): Duo {
    p.(x := p.x.(ep := Service(p.x.ep, now).0))
  }

  lemma TimeoutResends(p: Duo, now: u32)
    requires DuoInv(p) && Linked(p.x.ep.hs, p.y.ep.hs) && TimeoutDue(p.x.ep, now)
    requires forall c :: 0 <= c < MAX_CHAN ==> p.y.ep.rx.rings[c] == []
    ensures Resending(Timeout(p, now)) && Timeout(p, now).x.ep.tx.sent == 0
    ensures Timeout(p, now).x.ep.tx.window != []
  {
    ServiceKeepsFlows(p.x, p.y, p.xy, p.yx, now);
    FlowValid(p.x, p.y, p.xy, p.yx);
    FlowValid(p.y, p.x, p.yx, p.xy);
    ServiceKeepsValid(p.x.ep, now);
  }

  // The whole recovery: timeout, lossless exchange out, lossless exchange back.
  function Recovered(p: Duo, now: u32): Duo
    requires DuoInv(p) && Linked(p.x.ep.hs, p.y.ep.hs) && TimeoutDue(p.x.ep, now)
    requires forall c :: 0 <= c < MAX_CHAN ==> p.y.ep.rx.rings[c] == []
  {
    TimeoutResends(p, now);
    DrainResends(Timeout(p, now));
    Drain(Flip(Drain(Timeout(p, now))))
  }

  // Main result: after one timeout and one lossless exchange the peer has consumed every
  // message written, and every one is acknowledged: the window is empty.
  lemma TimeoutRecovers(p: Duo, now: u32)
    requires DuoInv(p) && Linked(p.x.ep.hs, p.y.ep.hs) && TimeoutDue(p.x.ep, now)
    requires forall c :: 0 <= c < MAX_CHAN ==> p.y.ep.rx.rings[c] == []
    ensures var q := Recovered(p, now);
            && q.y.out.msgs == p.x.out.msgs
            && q.x.taken.rx == |p.x.out.msgs| == q.y.out.base
            && q.y.ep.tx.window == []
            && Linked(q.x.ep.hs, q.y.ep.hs)
  {
    TimeoutResends(p, now);
    var p1 := Timeout(p, now);
    DrainResends(p1);
    var p2 := Drain(p1);
    assert p2.x.ep.tx.sent == |p2.x.ep.tx.window|;
    assert p2.y.taken.rx == |p.x.out.msgs|;
    DrainAcks(Flip(p2), p.x.out.msgs);
  }

  // ----- reachable states are linked -----

  // Handshake packets carry their sender's id; what a side has learnt of its peer is right.
  ghost predicate Names(d: Datagram, id: u32) {
    |d.pkt| >= HDR + 4 && d.pkt[4] in {PKT_SYN, PKT_SYNACK} ==> Rd32(d.pkt, HDR) == id
  }

  predicate Up(h: Handshake) {
    h.state == Connecting || h.state == Connected
  }

  ghost predicate IdInv(s: Sys) {
    && !s.a.ep.hs.server && s.b.ep.hs.server
    && (s.a.ep.hs.state == Connected ==> s.a.ep.hs.remoteId == s.b.ep.hs.localId)
    && (Up(s.b.ep.hs) ==> s.b.ep.hs.remoteId == s.a.ep.hs.localId)
    && (forall d :: d in s.ab ==> Names(d, s.a.ep.hs.localId))
    && (forall d :: d in s.ba ==> Names(d, s.b.ep.hs.localId))
  }

  lemma SendNames(x: Side, buflen: nat)
    requires Valid(x.ep)
    ensures var (x', sent) := DoSend(x, buflen);
            && x'.ep.hs.localId == x.ep.hs.localId && x'.ep.hs.server == x.ep.hs.server
            && x'.ep.hs.state == x.ep.hs.state && x'.ep.hs.remoteId == x.ep.hs.remoteId
            && forall d :: d in sent ==> Names(d, x.ep.hs.localId)
  {
    if buflen >= HDR {
      if ControlDue(x.ep.hs) {
        ControlReads(x.ep.hs);
      } else if !Quiet(x.ep) {
        DataPacketReads(x.ep, Min(buflen, MTU));
      }
    }
  }

  // What an action may do to the handshake of one end, its peer's id being peer.
  ghost predicate NamesKept(h: Handshake, h': Handshake, peer: u32, connects: bool) {
    && h'.localId == h.localId && h'.server == h.server
    && (h'.remoteId == h.remoteId || h'.remoteId == peer)
    && (!h.server && h'.state == Connected && h.state != Connected ==> h'.remoteId == peer)
    && (h.server && !connects && Up(h') && !Up(h) ==> h'.remoteId == peer)
  }

  lemma FeedNames(x: Side, d: Datagram, peer: u32)
    requires Valid(x.ep) && Names(d, peer)
    ensures NamesKept(x.ep.hs, DoRecv(x, d).ep.hs, peer, false)
  {
    hide DeliverAll, ParseRecs, ProcessAck, Rd32, Rd16;
  }

  lemma ServiceNames(x: Side, now: u32, peer: u32)
    requires Valid(x.ep)
    ensures NamesKept(x.ep.hs, Service(x.ep, now).0.hs, peer, false)
  {
  }

  lemma ActNames(x: Side, act: Act, peer: u32)
    requires Valid(x.ep) && (act.DRecv? ==> Names(act.d, peer))
    ensures NamesKept(x.ep.hs, Act1(x, act).0.ep.hs, peer, act.DConnect?)
  {
    hide DoSend, DoRecv, Service;
    match act
    case DSend(buflen) => SendNames(x, buflen);
    case DRecv(d) => FeedNames(x, d, peer);
    case DService(now) => ServiceNames(x, now, peer);
    case _ =>
  }

  lemma StepKeepsIds(s: Sys, s': Sys, byA: bool, act: Act)
    requires Inv(s) && IdInv(s) && Next(s, s', byA, act) && (act.DConnect? ==> byA)
    ensures IdInv(s')
  {
    if byA {
      if act.DSend? { SendNames(s.a, act.buflen); }
      ActNames(s.a, act, s.b.ep.hs.localId);
    } else {
      if act.DSend? { SendNames(s.b, act.buflen); }
      ActNames(s.b, act, s.a.ep.hs.localId);
    }
  }

  lemma {:induction false} RunKeepsIds(run: seq<Sys>, steps: seq<Label>,
                                       layout: seq<ChanSlot>, idA: u32, idB: u32, i: nat)
    requires IsRun(run, steps) && Init(run[0], layout, idA, idB) && i < |run|
    requires forall j :: 0 <= j < |steps| ==> (steps[j].act.DConnect? ==> steps[j].byA)
    ensures IdInv(run[i])
  {
    if i > 0 {
      RunKeepsIds(run, steps, layout, idA, idB, i - 1);
      RunKeepsInv(run, steps, layout, idA, idB, i - 1);
      StepKeepsIds(run[i - 1], run[i], steps[i - 1].byA, steps[i - 1].act);
    }
  }

  // In every reachable state with both ends up and the reader's rings drained, an overdue
  // side recovers its whole window, whichever side it is.
  lemma ReachableRecovers(run: seq<Sys>, steps: seq<Label>, layout: seq<ChanSlot>,
                          idA: u32, idB: u32, i: nat, fromA: bool, now: u32)
    requires IsRun(run, steps) && Init(run[0], layout, idA, idB) && i < |run|
    requires forall j :: 0 <= j < |steps| ==> (steps[j].act.DConnect? ==> steps[j].byA)
    requires run[i].a.ep.hs.state == run[i].b.ep.hs.state == Connected
    requires var p := Facing(run[i], fromA);
             && TimeoutDue(p.x.ep, now)
             && |p.y.ep.rx.rings| == MAX_CHAN
             && forall c :: 0 <= c < MAX_CHAN ==> p.y.ep.rx.rings[c] == []
    ensures var p := Facing(run[i], fromA);
            && DuoInv(p) && Linked(p.x.ep.hs, p.y.ep.hs)
            && Recovered(p, now).y.ep.tx.window == []
            && Recovered(p, now).x.taken.rx == |p.x.out.msgs|
  {
    RunKeepsInv(run, steps, layout, idA, idB, i);
    RunKeepsIds(run, steps, layout, idA, idB, i);
    TimeoutRecovers(Facing(run[i], fromA), now);
  }

  function Facing(s: Sys, fromA: bool): Duo {
    if fromA then Duo(s.a, s.b, s.ab, s.ba) else Duo(s.b, s.a, s.ba, s.ab)
  }
}
