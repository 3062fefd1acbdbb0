// Coming up, staying up and going down: the handshake, the retries of the service routine
// and the keepalive, over the calls that carry them.
module MicrochanLink {
  import opened Bytes
  import opened MicrochanMachine
  import opened MicrochanSession
  import opened MicrochanProgress

  // ----- the handshake -----

  // Only the named control packet is due.
  predicate OnlySyn(h: Handshake) { h.sendSyn && !h.sendSynack && !h.sendAck }

  predicate OnlySynack(h: Handshake) { h.sendSynack && !h.sendSyn && !h.sendAck }

  predicate OnlyAck(h: Handshake) { h.sendAck && !h.sendSyn && !h.sendSynack }

  // A control packet pulled from x and fed to y touches their handshakes alone, and shows y
  // that x is alive.
  lemma ControlHop(p: Duo)
    requires Valid(p.x.ep) && Valid(p.y.ep) && ControlDue(p.x.ep.hs)
    ensures var q := Hop(p);
            && q.x.ep == p.x.ep.(hs := SendControl(p.x.ep.hs).0, clk := p.x.ep.clk.(lastSend := p.x.ep.clk.now))
            && q.y.ep == p.y.ep.(hs := FeedControl(p.y.ep.hs, p.y.ep.clk.now, SendControl(p.x.ep.hs).1).0,
                                 clk := p.y.ep.clk.(lastRecv := p.y.ep.clk.now))
            && Valid(q.x.ep) && Valid(q.y.ep)
  {
    hide FeedControl, SendControl;
    ControlReads(p.x.ep.hs);
  }

  lemma SynReads(h: Handshake)
    requires OnlySyn(h)
    ensures var (h', p) := SendControl(h);
            && h' == h.(sendSyn := false) && |p| == HDR + 4 && p[4] == PKT_SYN
            && Rd32(p, 0) == 0 && Rd32(p, HDR) == h.localId
  {
    hide Rd32;
    ControlReads(h);
    var p := SendControl(h).1;
    assert p[0..4] == Wr32(0);
    ReadBack32(p, 0, 0);
  }

  lemma SynackReads(h: Handshake)
    requires OnlySynack(h)
    ensures var (h', p) := SendControl(h);
            && h' == h.(sendSynack := false) && |p| == HDR + 4 && p[4] == PKT_SYNACK
            && Rd32(p, 0) == h.remoteId && Rd32(p, HDR) == h.localId
  {
    hide Rd32;
    ControlReads(h);
    var p := SendControl(h).1;
    assert p[0..4] == Wr32(h.remoteId);
    ReadBack32(p, 0, h.remoteId);
  }

  lemma AckReads(h: Handshake)
    requires OnlyAck(h)
    ensures var (h', p) := SendControl(h);
            h' == h.(sendAck := false) && |p| == HDR && p[4] == PKT_ACK && Rd32(p, 0) == h.remoteId
  {
    hide Rd32;
    var p := SendControl(h).1;
    assert p[0..4] == Wr32(h.remoteId);
    ReadBack32(p, 0, h.remoteId);
  }

  // The three steps at the other end. A server takes the name of the first SYN that reaches
  // it closed and answers every one until it is up.
  lemma SynAnswered(h: Handshake, k: Handshake, now: u32)
    requires OnlySyn(h) && k.server
    ensures var k' := FeedControl(k, now, SendControl(h).1).0;
            if k.state == Closed then
              k' == k.(remoteId := h.localId, state := Connecting, sendSynack := true,
                       timer := Plus32(now, CONNECT_RETRY_MS), attempts := 0)
            else k' == k.(sendSynack := k.sendSynack || k.state == Connecting)
  {
    hide SendControl, Rd32;
    SynReads(h);
  }

  // A client takes the server's name and is up, and says so to every answer.
  lemma SynackAnswered(h: Handshake, k: Handshake, now: u32)
    requires OnlySynack(h) && !k.server && h.remoteId == k.localId
    ensures FeedControl(k, now, SendControl(h).1).0
         == k.(remoteId := h.localId, sendAck := true, state := if k.state == Connecting then Connected else k.state)
  {
    hide SendControl, Rd32;
    SynackReads(h);
  }

  lemma AckAnswered(h: Handshake, k: Handshake, now: u32)
    requires OnlyAck(h) && k.server && h.remoteId == k.localId
    ensures FeedControl(k, now, SendControl(h).1).0
         == k.(state := if k.state == Connecting then Connected else k.state)
  {
    hide SendControl, Rd32;
    AckReads(h);
  }

  // A client asking, and a server that has not heard of anyone, or only of this client.
  predicate Meeting(h: Handshake, k: Handshake) {
    && !h.server && h.state == Connecting && OnlySyn(h)
    && k.server && (k.state == Closed || (k.state == Connecting && k.remoteId == h.localId))
    && !k.sendSyn && !k.sendAck
  }

  // SYN out, SYNACK back, ACK out.
  function Handshaken(p: Duo): Duo
    requires Valid(p.x.ep) && Valid(p.y.ep) && Meeting(p.x.ep.hs, p.y.ep.hs)
  {
    ControlHop(p);
    SynAnswered(p.x.ep.hs, p.y.ep.hs, p.y.ep.clk.now);
    var q := Flip(Hop(p));
    ControlHop(q);
    SynackAnswered(q.x.ep.hs, q.y.ep.hs, q.y.ep.clk.now);
    Hop(Flip(Hop(q)))
  }

  // Main result: one lossless exchange brings both ends up, each with the other's name, and
  // touches nothing but the handshakes and clocks.
  lemma HandshakeConnects(p: Duo)
    requires Valid(p.x.ep) && Valid(p.y.ep) && Meeting(p.x.ep.hs, p.y.ep.hs)
    ensures var q := Handshaken(p);
            && Linked(q.x.ep.hs, q.y.ep.hs) && !ControlDue(q.x.ep.hs) && !ControlDue(q.y.ep.hs)
            && q.x.ep == p.x.ep.(hs := q.x.ep.hs, clk := q.x.ep.clk)
            && q.y.ep == p.y.ep.(hs := q.y.ep.hs, clk := q.y.ep.clk)
            && q.x.ep.hs.localId == p.x.ep.hs.localId && q.y.ep.hs.localId == p.y.ep.hs.localId
  {
    hide Hop, SendControl, FeedControl, Valid;
    ControlHop(p);
    SynReads(p.x.ep.hs);
    SynAnswered(p.x.ep.hs, p.y.ep.hs, p.y.ep.clk.now);
    var q := Flip(Hop(p));
    ControlHop(q);
    SynackReads(q.x.ep.hs);
    SynackAnswered(q.x.ep.hs, q.y.ep.hs, q.y.ep.clk.now);
    var r := Flip(Hop(q));
    ControlHop(r);
    AckReads(r.x.ep.hs);
    AckAnswered(r.x.ep.hs, r.y.ep.hs, r.y.ep.clk.now);
  }

  // Two fresh ends meet as soon as the client calls connect, which then waits a quarter of a
  // second before it asks again.
  lemma FreshEndsMeet(idA: u32, idB: u32, layout: seq<ChanSlot>, now: u32)
    requires |layout| == MAX_CHAN
    ensures var a, b := Fresh(false, idA, layout), Fresh(true, idB, layout);
            && Valid(a) && Valid(b) && Meeting(Connect(a.hs, now), b.hs)
            && Connect(a.hs, now).attempts == 0 && Minus32(Connect(a.hs, now).timer, now) == CONNECT_RETRY_MS
  {
  }

  // An end just opened is silent and closed, its clock at zero.
  lemma FreshIsSilent(server: bool, id: u32, layout: seq<ChanSlot>, buflen: nat, ch: nat, data: bytes)
    requires |layout| == MAX_CHAN
    ensures var e := Fresh(server, id, layout);
            && Valid(e) && e.clk == Clock(0, 0, 0) && e.hs.localId == id && e.hs.server == server
            && SendNext(e, buflen) == (e, []) && Write(e, ch, data).0 == e && Write(e, ch, data).1 < 0
            && Read(e.rx, ch, buflen) == (e.rx, Nothing)
  {
  }

  // ----- losing handshake packets -----

  function Serviced(e: Ep, nows: seq<u32>): Ep
    decreases |nows|
  {
    if nows == [] then e else Serviced(Service(e, nows[0]).0, nows[1..])
  }

  // Each of these service calls comes no earlier than the deadline then standing.
  predicate AllLapse(e: Ep, nows: seq<u32>)
    decreases |nows|
  {
    nows == [] || ((e.hs.state == Connecting ==> nows[0] >= e.hs.timer) && AllLapse(Service(e, nows[0]).0, nows[1..]))
  }

  // Main result for a handshake that is never answered: every lapsed deadline makes the
  // packet due again, 240 times, and the next one closes the connection.
  lemma {:induction false} GivesUpAfter(e: Ep, nows: seq<u32>)
    requires e.hs.state == Connecting && e.hs.attempts <= CONNECT_RETRIES && AllLapse(e, nows)
    ensures var e' := Serviced(e, nows);
            && e'.hs.state == (if e.hs.attempts + |nows| <= CONNECT_RETRIES then Connecting else Closed)
            && (e'.hs.state == Connecting && nows != [] ==>
                  && e'.hs.attempts == e.hs.attempts + |nows|
                  && e'.hs.timer == Plus32(nows[|nows| - 1], CONNECT_RETRY_MS)
                  && if e.hs.server then e'.hs.sendSynack else e'.hs.sendSyn)
    decreases |nows|
  {
    if nows != [] {
      var e1 := Service(e, nows[0]).0;
      if e1.hs.state == Connecting {
        GivesUpAfter(e1, nows[1..]);
      } else {
        ClosedStays(e1, nows[1..]);
      }
    }
  }

  lemma {:induction false} ClosedStays(e: Ep, nows: seq<u32>)
    requires e.hs.state == Closed
    ensures Serviced(e, nows).hs == e.hs && Serviced(e, nows).tx == e.tx
    decreases |nows|
  {
    if nows != [] {
      ClosedStays(Service(e, nows[0]).0, nows[1..]);
    }
  }

  // A handshake closes exactly when a deadline passes with all retries made, and the caller
  // is told.
  lemma HandshakeClosesIff(e: Ep, now: u32)
    requires e.hs.state == Connecting && e.hs.attempts <= CONNECT_RETRIES
    ensures var (e', rc) := Service(e, now);
            && (e'.hs.state == Closed <==> now >= e.hs.timer && e.hs.attempts == CONNECT_RETRIES)
            && rc == (if e'.hs.state == Closed then MC_ERR else CONNECT_RETRY_MS)
            && (e'.hs.state != Closed ==> e'.hs.state == Connecting)
  {
  }

  // Before its deadline a handshake waits.
  lemma EarlyServiceWaits(e: Ep, now: u32)
    requires e.hs.state == Connecting && now < e.hs.timer
    ensures Service(e, now) == (e.(clk := e.clk.(now := now)), CONNECT_RETRY_MS)
  {
  }

  // ----- retransmission -----

  lemma {:induction false} Pow2Grows(n: nat)
    ensures Pow2(n) > n
  {
    if n > 0 {
      Pow2Grows(n - 1);
    }
  }

  // The wait doubles from the first one on, up to eight times.
  lemma BackoffDoubles(n: nat)
    ensures Backoff(n) == Min(RT_MS * Pow2(n), 8 * RT_MS)
  {
    if n >= 3 {
      Pow2Grows(n - 3);
      assert Pow2(n) == 2 * Pow2(n - 1) && Pow2(n - 1) == 2 * Pow2(n - 2);
    }
  }

  // Data is overdue at each of these service calls, and the peer heard of recently.
  predicate AllOverdue(e: Ep, nows: seq<u32>)
    decreases |nows|
  {
    nows == []
    || ((e.hs.state == Connected ==> Due(e.tx, nows[0]) && Minus32(nows[0], e.clk.lastRecv) <= IDLE_MS)
        && AllOverdue(Service(e, nows[0]).0, nows[1..]))
  }

  // Main result for data never acknowledged: each overdue deadline puts the whole window back
  // to unsent and doubles the wait, twelve times, and the next one closes the connection.
  lemma {:induction false} DataGivesUpAfter(e: Ep, nows: seq<u32>)
    requires e.hs.state == Connected && e.tx.attempts <= RT_ATTEMPTS && AllOverdue(e, nows)
    ensures var e', n := Serviced(e, nows), e.tx.attempts + |nows|;
            && e'.hs.state == (if n <= RT_ATTEMPTS then Connected else Closed)
            && e'.tx.window == e.tx.window && e'.tx.base == e.tx.base
            && (nows != [] && n <= RT_ATTEMPTS ==>
                  e'.tx.sent == 0 && e'.tx.attempts == n
                  && e'.tx.timer == Plus32(nows[|nows| - 1], Min(RT_MS * Pow2(n), 8 * RT_MS)))
    decreases |nows|
  {
    hide Pow2;
    if nows != [] {
      var e1 := Service(e, nows[0]).0;
      BackoffDoubles(e.tx.attempts + 1);
      if e1.hs.state == Connected {
        DataGivesUpAfter(e1, nows[1..]);
      } else {
        ClosedStays(e1, nows[1..]);
      }
    }
  }

  // An acknowledgement that releases anything forgives the tries made so far and restarts the
  // wait for what is left; any other changes nothing.
  lemma AckRestarts(t: Tx, now: u32, ack: u16)
    requires TxValid(t)
    ensures var t' := ProcessAck(t, now, ack);
            var k := |t.window| - |t'.window|;
            && 0 <= k <= |t.window| && t'.window == t.window[k..]
            && if k == 0 then t' == t
               else t'.attempts == 0 && t'.timer == (if t'.window == [] then 0 else Plus32(now, RT_MS))
                    && t'.base == Plus16(t.base, k) && t'.sent == (if t.sent < k then 0 else t.sent - k)
  {
  }

  // ----- going down, and the keepalive -----

  predicate Idle(e: Ep, now: u32) {
    Minus32(now, e.clk.lastRecv) > IDLE_MS
  }

  // A connection that is up goes down exactly when nothing was heard for ten seconds or the
  // thirteenth deadline of the same data has passed, and the caller is told.
  lemma ClosesIff(e: Ep, now: u32)
    requires e.hs.state == Connected && e.tx.attempts <= RT_ATTEMPTS
    ensures var (e', rc) := Service(e, now);
            && (e'.hs.state == Closed <==> Idle(e, now) || (Due(e.tx, now) && e.tx.attempts == RT_ATTEMPTS))
            && (rc == MC_ERR <==> e'.hs.state == Closed) && (e'.hs.state != Closed ==> e'.hs == e.hs && rc == RT_MS)
  {
  }

  // While it stays up, a packet is due after the call exactly when one was before, data is to
  // be sent again, or nothing was sent for a second: then an acknowledgement alone goes out.
  lemma ServiceSpeaksIff(e: Ep, now: u32, buflen: nat)
    requires Valid(e) && buflen >= MTU && e.hs.state == Connected && Service(e, now).0.hs.state == Connected
    ensures var e' := Service(e, now).0;
            && Valid(e')
            && (SendNext(e', buflen).1 != []
                <==> SendNext(e, buflen).1 != [] || Due(e.tx, now) || Minus32(now, e.clk.lastSend) > KEEPALIVE_MS)
            && e'.unrel == e.unrel && e'.rx == e.rx.(ackPending := e'.rx.ackPending)
            && (e'.rx.ackPending <==> e.rx.ackPending || Minus32(now, e.clk.lastSend) > KEEPALIVE_MS)
            && (!Due(e.tx, now) ==> e'.tx == e.tx)
  {
    var e' := Service(e, now).0;
    ServiceKeepsValid(e, now);
    SpeaksIff(e, buflen);
    SpeaksIff(e', buflen);
  }

  lemma SpeaksIff(e: Ep, buflen: nat)
    requires Valid(e) && buflen >= MTU && e.hs.state == Connected
    ensures SendNext(e, buflen).1 != [] <==> ControlDue(e.hs) || !Quiet(e)
  {
    if ControlDue(e.hs) {
      ControlReads(e.hs);
    } else if !Quiet(e) {
      DataPacketReads(e, MTU);
    }
  }

  // Whatever is sent restarts both waits: the sender's for its keepalive, and at the peer it
  // reaches the one for giving the sender up.
  lemma PacketIsHeard(p: Duo)
    requires Valid(p.x.ep) && Valid(p.y.ep) && Talks(p.x)
    ensures var q := Hop(p);
            && q.x.ep.clk == p.x.ep.clk.(lastSend := p.x.ep.clk.now)
            && q.y.ep.clk == p.y.ep.clk.(lastRecv := p.y.ep.clk.now)
            && !Idle(q.y.ep, p.y.ep.clk.now)
  {
    hide DeliverAll, ParseRecs, ProcessAck, DataPacket, DataRecs;
    if ControlDue(p.x.ep.hs) {
      ControlReads(p.x.ep.hs);
    } else {
      DataPacketReads(p.x.ep, MTU);
    }
  }

  // ----- what a refused packet or call leaves behind -----

  // A packet that is refused changes nothing, but that something was heard if it had a header.
  lemma RefusedChangesNothing(e: Ep, pkt: bytes)
    requires Valid(e) && Feed(e, pkt).1 != MC_OK
    ensures Feed(e, pkt) == (if |pkt| < HDR then e else e.(clk := e.clk.(lastRecv := e.clk.now)), MC_ERR_PROTO)
  {
    hide DeliverAll, ParseRecs, ProcessAck, Rd32, Rd16;
  }

  // It is refused exactly when it is short, of no kind known, for the other role, or, unless
  // it is a SYN, not addressed here.
  lemma RefusedIff(e: Ep, pkt: bytes)
    requires Valid(e)
    ensures Feed(e, pkt).1 == MC_OK <==>
            && |pkt| >= HDR && PKT_SYN <= pkt[4] <= PKT_FIN
            && (pkt[4] != PKT_SYN ==> Rd32(pkt, 0) == e.hs.localId)
            && (pkt[4] == PKT_SYN || pkt[4] == PKT_ACK ==> e.hs.server)
            && (pkt[4] == PKT_SYNACK ==> !e.hs.server)
            && (pkt[4] == PKT_SYN || pkt[4] == PKT_SYNACK ==> |pkt| >= HDR + 4)
  {
    hide DeliverAll, ParseRecs, ProcessAck, Rd32, Rd16;
  }

  // FIN closes; data wakes a server still waiting for the last packet of the handshake.
  lemma FinAndData(e: Ep, pkt: bytes)
    requires Valid(e) && |pkt| >= HDR && Rd32(pkt, 0) == e.hs.localId && pkt[4] in {PKT_FIN, PKT_DATA}
    ensures Feed(e, pkt).0.hs
         == if pkt[4] == PKT_FIN then e.hs.(state := Closed)
            else if e.hs.server && e.hs.state == Connecting then e.hs.(state := Connected) else e.hs
  {
    hide DeliverAll, ParseRecs, ProcessAck, Rd32, Rd16;
  }

  // A write is taken whole, at the end of the right queue, or refused for exactly one reason
  // with nothing changed.
  lemma WriteOutcome(e: Ep, ch: nat, data: bytes)
    requires Valid(e)
    ensures var (e', rc) := Write(e, ch, data);
            var open := ch < MAX_CHAN && e.layout[ch] != Unused;
            if rc >= 0 then
              && rc == |data| <= MAXMSG && open && e.hs.state == Connected
              && if e.layout[ch] == Open(Reliable)
                 then |e.tx.window| < WINDOW && e' == e.(tx := e.tx.(window := e.tx.window + [Msg(ch, data)]))
                 else e'.unrel != [] && e'.unrel[|e'.unrel| - 1] == Msg(ch, data)
                      && e' == e.(unrel := e'.unrel) && |e'.unrel| == Min(|e.unrel| + 1, UNREL_TXQ)
            else
              && e' == e
              && (rc == MC_ERR <==> !open)
              && (rc == MC_ERR_CLOSED <==> open && e.hs.state != Connected)
              && (rc == MC_ERR_TOOBIG <==> open && e.hs.state == Connected && |data| > MAXMSG)
              && (rc == MC_ERR_AGAIN
                  <==> open && e.hs.state == Connected && |data| <= MAXMSG && e.layout[ch] == Open(Reliable)
                       && |e.tx.window| == WINDOW)
  {
  }
}
