// The retransmit timer: when unacknowledged data goes without one. The deadline is now plus
// 120 in 32 bits, and a deadline of 0 means no timer.
module MicrochanTimer {
  import opened Bytes
  import opened MicrochanMachine
  import opened MicrochanSession

  // Unacknowledged data is either on the clock or still to be sent.
  predicate OnTheClock(t: Tx) {
    t.window != [] ==> t.timer != 0 || t.sent < |t.window|
  }

  // The deadline computed at this time wraps to 0.
  predicate DeadlineIsZero(now: u32) {
    Plus32(now, RT_MS) == 0
  }

  // ----- each operation, exactly -----

  // Sending leaves data off the clock exactly when it puts the last of the window on the
  // wire with no timer running, at the time whose deadline is 0.
  predicate SendLapses(t: Tx, now: u32, cap: nat)
    requires TxValid(t)
  {
    t.window != [] && t.timer == 0 && t.sent + |RelOut(t, cap)| == |t.window| && DeadlineIsZero(now)
  }

  lemma SendLapsesIff(t: Tx, now: u32, cap: nat)
    requires TxValid(t)
    ensures OnTheClock(TxSend(t, now, cap)) <==> !SendLapses(t, now, cap)
  {
    hide Fits;
  }

  // An acknowledgement does exactly when it releases part, not all, of a window that is
  // wholly on the wire, at that time.
  predicate AckLapses(t: Tx, now: u32, ack: u16)
    requires TxValid(t)
  {
    0 < AckCount(t, ack) < |t.window| && t.sent == |t.window| && DeadlineIsZero(now)
  }

  lemma AckLapsesIff(t: Tx, now: u32, ack: u16)
    requires TxValid(t) && OnTheClock(t)
    ensures OnTheClock(ProcessAck(t, now, ack)) <==> !AckLapses(t, now, ack)
  {
    hide AckCount;
  }

  // The service routine neither takes data off the clock nor, once it is off, puts it back.
  lemma RetransmitIff(t: Tx, now: u32)
    ensures OnTheClock(Retransmit(t, now)) <==> OnTheClock(t)
    ensures !OnTheClock(t) ==> Retransmit(t, now) == t
  {
  }

  // It happens: one message, sent at 2^32 - 120 ms, has no timer, and the service routine,
  // whenever it runs, does not resend it. By SendLapsesIff the next data packet of the same
  // side, if only a keepalive, puts it on the clock.
  lemma TimerLost(m: Msg, base: u16, cap: nat, later: u32)
    requires HDR + REC + |m.data| <= cap && MsgOk(m)
    ensures var t := Tx(base, [m], 0, 0, 0);
            && OnTheClock(t)
            && !OnTheClock(TxSend(t, 0xffff_ff88, cap))
            && Retransmit(TxSend(t, 0xffff_ff88, cap), later) == TxSend(t, 0xffff_ff88, cap)
  {
    var t := Tx(base, [m], 0, 0, 0);
    assert t.window[t.sent..] == [m];
    assert Fits(cap - HDR, [m]) == 1;
    SendLapsesIff(t, 0xffff_ff88, cap);
    RetransmitIff(TxSend(t, 0xffff_ff88, cap), later);
  }

  // From the start: a client whose clock stands at 2^32 - 120 ms connects, writes its first
  // message and sends it.
  lemma LostFromStart(id: u32, peer: u32, layout: seq<ChanSlot>, data: bytes)
    requires |layout| == MAX_CHAN && layout[0] == Open(Reliable) && |data| <= MAXMSG
    ensures var e0 := Service(Fresh(false, id, layout), 0xffff_ff88).0;
            var e1 := SendNext(e0.(hs := Connect(e0.hs, e0.clk.now)), MTU).0;
            && Valid(e1)
            && var e2 := SendNext(Feed(e1, Header(id, PKT_SYNACK, 0) + Wr32(peer)).0, MTU).0;
               && Valid(e2) && e2.hs.state == Connected && e2.hs.remoteId == peer
               && var (e3, rc) := Write(e2, 0, data);
                  && rc == |data| && Valid(e3) && OnTheClock(e3.tx)
                  && !OnTheClock(SendNext(e3, MTU).0.tx)
  {
    hide EncodeRecs, Load;
    var e0 := Service(Fresh(false, id, layout), 0xffff_ff88).0;
    var e1 := SendNext(e0.(hs := Connect(e0.hs, e0.clk.now)), MTU).0;
    SynackConnects(e1, id, peer);
    var e2 := SendNext(Feed(e1, Header(id, PKT_SYNACK, 0) + Wr32(peer)).0, MTU).0;
    var e3 := Write(e2, 0, data).0;
    FirstLapses(e3, Msg(0, data));
  }

  lemma SynackConnects(e: Ep, id: u32, peer: u32)
    requires Valid(e) && e.hs.localId == id && !e.hs.server && e.hs.state == Connecting
    ensures var e' := Feed(e, Header(id, PKT_SYNACK, 0) + Wr32(peer)).0;
            && e'.hs == e.hs.(remoteId := peer, sendAck := true, state := Connected)
            && e'.tx == e.tx && e'.rx == e.rx && e'.unrel == e.unrel && e'.layout == e.layout && e'.clk.now == e.clk.now
  {
    hide Wr32, Wr16, Rd32, Rd16;
    var pkt := Header(id, PKT_SYNACK, 0) + Wr32(peer);
    assert pkt[0..4] == Wr32(id) && pkt[HDR..HDR + 4] == Wr32(peer) && pkt[4] == PKT_SYNACK;
    ReadBack32(pkt, 0, id);
    ReadBack32(pkt, HDR, peer);
  }

  lemma FirstLapses(e: Ep, m: Msg)
    requires Valid(e) && e.tx == Tx(0, [m], 0, 0, 0) && e.hs.state == Connected && !ControlDue(e.hs)
    requires e.clk.now == 0xffff_ff88
    ensures !OnTheClock(SendNext(e, MTU).0.tx)
  {
    hide EncodeRecs, Load;
    assert MsgOk(e.tx.window[0]);
    TimerLost(m, 0, MTU, 0);
  }

  // ----- steps -----

  // What side x does next takes its data off the clock.
  predicate Lapses(x: Side, act: Act)
    requires Valid(x.ep)
  {
    match act
    case DSend(buflen) =>
      && HDR <= buflen && !ControlDue(x.ep.hs) && !Quiet(x.ep)
      && SendLapses(x.ep.tx, x.ep.clk.now, Min(buflen, MTU))
    case DRecv(d) =>
      DataFed(x.ep, d.pkt) && AckLapses(x.ep.tx, x.ep.clk.now, Rd16(d.pkt, 6))
    case _ => false
  }

  lemma ActLapsesIff(x: Side, act: Act)
    requires Valid(x.ep) && OnTheClock(x.ep.tx)
    ensures OnTheClock(Act1(x, act).0.ep.tx) <==> !Lapses(x, act)
  {
    hide SendLapses, AckLapses, OnTheClock, TxSend, Retransmit, ProcessAck, Rd16;
    match act
    case DWrite(ch, data) => WriteOnClock(x.ep, ch, data);
    case DSend(buflen) => SendLapsesIff(x.ep.tx, x.ep.clk.now, Min(buflen, MTU));
    case DRecv(d) => FeedOnClock(x, d);
    case DService(now) => RetransmitIff(x.ep.tx, now);
    case _ =>
  }

  lemma WriteOnClock(e: Ep, ch: nat, data: bytes)
    requires Valid(e) && OnTheClock(e.tx)
    ensures OnTheClock(Write(e, ch, data).0.tx)
  {
  }

  lemma FeedOnClock(x: Side, d: Datagram)
    requires Valid(x.ep) && OnTheClock(x.ep.tx)
    ensures OnTheClock(DoRecv(x, d).ep.tx) <==> !Lapses(x, DRecv(d))
  {
    hide AckLapses, OnTheClock, Feed, ProcessAck;
    FeedCases(x.ep, d.pkt);
    if DataFed(x.ep, d.pkt) {
      AckLapsesIff(x.ep.tx, x.ep.clk.now, Rd16(d.pkt, 6));
    }
  }

  // ----- runs -----

  ghost predicate BothOnClock(s: Sys) {
    OnTheClock(s.a.ep.tx) && OnTheClock(s.b.ep.tx)
  }

  // The side that takes step l.
  function Actor(s: Sys, l: Label): Side {
    if l.byA then s.a else s.b
  }

  ghost predicate LapsesAt(s: Sys, l: Label) {
    Valid(Actor(s, l).ep) && Lapses(Actor(s, l), l.act)
  }

  lemma StepOnClockIff(s: Sys, s': Sys, l: Label)
    requires Next(s, s', l.byA, l.act) && BothOnClock(s)
    ensures BothOnClock(s') <==> !LapsesAt(s, l)
  {
    hide OnTheClock, Lapses, Act1, Enabled;
    ActLapsesIff(Actor(s, l), l.act);
  }

  lemma StartsOnClock(s: Sys, layout: seq<ChanSlot>, idA: u32, idB: u32)
    requires Init(s, layout, idA, idB)
    ensures BothOnClock(s)
  {
  }

  // Main result: in a run from the start, no state up to the i-th has data in flight without a
  // timer if and only if none of the steps so far was a send or an acknowledgement that lapses.
  lemma {:induction false} RunOnClockIff(run: seq<Sys>, steps: seq<Label>,
                                         layout: seq<ChanSlot>, idA: u32, idB: u32, i: nat)
    requires IsRun(run, steps) && Init(run[0], layout, idA, idB) && i < |run|
    ensures (forall j :: 0 <= j <= i ==> BothOnClock(run[j]))
       <==> (forall j :: 0 <= j < i ==> !LapsesAt(run[j], steps[j]))
  {
    hide BothOnClock, LapsesAt, Next, Init;
    StartsOnClock(run[0], layout, idA, idB);
    if i > 0 {
      RunOnClockIff(run, steps, layout, idA, idB, i - 1);
      if forall j :: 0 <= j <= i - 1 ==> BothOnClock(run[j]) {
        StepOnClockIff(run[i - 1], run[i], steps[i - 1]);
      }
    }
  }

  lemma LapseTime(s: Sys, l: Label)
    requires LapsesAt(s, l)
    ensures DeadlineIsZero(Actor(s, l).ep.clk.now)
  {
  }

  // So a run in which neither clock is ever at 2^32 - 120 ms keeps its timers.
  lemma RunKeepsTimer(run: seq<Sys>, steps: seq<Label>, layout: seq<ChanSlot>, idA: u32, idB: u32, i: nat)
    requires IsRun(run, steps) && Init(run[0], layout, idA, idB) && i < |run|
    requires forall j :: 0 <= j < i ==> run[j].a.ep.clk.now != 0xffff_ff88 && run[j].b.ep.clk.now != 0xffff_ff88
    ensures BothOnClock(run[i])
  {
    hide BothOnClock, LapsesAt, Next, Init;
    forall j | 0 <= j < i ensures !LapsesAt(run[j], steps[j]) {
      if LapsesAt(run[j], steps[j]) {
        LapseTime(run[j], steps[j]);
      }
    }
    RunOnClockIff(run, steps, layout, idA, idB, i);
  }
}
