// One microchan endpoint as the program keeps it: 16-bit cursors into an eight-slot
// window, head-and-count rings, and in-place updates. Every method is proved to take
// exactly the step of the value machine.
module MicrochanEndpoint {
  import opened Bytes
  import opened Rings
  import opened MicrochanMachine

  datatype TxSlot = TxSlot(seqno: u16, chan: byte, data: bytes)

  // The slots from number start on hold these messages, numbered in order.
  ghost predicate Holds(slots: seq<TxSlot>, start: u16, ms: seq<Msg>)
    decreases |ms|
  {
    ms == [] || (&& |slots| == WINDOW
                 && slots[start % WINDOW] == TxSlot(start, ms[0].chan, ms[0].data)
                 && Holds(slots, Next16(start), ms[1..]))
  }

  lemma {:induction false} HoldsDrop(slots: seq<TxSlot>, start: u16, ms: seq<Msg>, k: nat)
    requires Holds(slots, start, ms) && k <= |ms| <= WINDOW
    ensures Holds(slots, Plus16(start, k), ms[k..])
    decreases k
  {
    if k == 0 {
      assert ms[0..] == ms;
    } else {
      HoldsDrop(slots, Next16(start), ms[1..], k - 1);
      Plus16Add(start, 1, k - 1);
      assert ms[1..][k - 1..] == ms[k..];
    }
  }

  lemma HoldsAt(slots: seq<TxSlot>, start: u16, ms: seq<Msg>, k: nat)
    requires Holds(slots, start, ms) && k < |ms| <= WINDOW
    ensures |slots| == WINDOW
    ensures slots[Plus16(start, k) % WINDOW] == TxSlot(Plus16(start, k), ms[k].chan, ms[k].data)
  {
    HoldsDrop(slots, start, ms, k);
    assert ms[k..][0] == ms[k];
  }

  // The window size divides the number space, so a free slot stays free across the wrap.
  lemma {:induction false} HoldsPush(slots: seq<TxSlot>, base: u16, ms: seq<Msg>, m: Msg)
    requires |slots| == WINDOW && |ms| < WINDOW && Holds(slots, base, ms)
    ensures var next := Plus16(base, |ms|);
            Holds(slots[next % WINDOW := TxSlot(next, m.chan, m.data)], base, ms + [m])
    decreases |ms|
  {
    var next := Plus16(base, |ms|);
    var slots' := slots[next % WINDOW := TxSlot(next, m.chan, m.data)];
    if ms == [] {
      assert Holds(slots', Next16(base), []);
      assert ([] + [m])[1..] == [];
    } else {
      SlotsDiffer(base, 0, |ms|);
      Plus16Add(base, 1, |ms| - 1);
      HoldsPush(slots, Next16(base), ms[1..], m);
      assert (ms + [m])[1..] == ms[1..] + [m];
    }
  }

  lemma SlotsDiffer(base: u16, i: nat, n: nat)
    requires i < n < WINDOW
    ensures Plus16(base, i) % WINDOW != Plus16(base, n) % WINDOW
  {
    assert Plus16(base, i) % WINDOW == (base + i) % WINDOW;
    assert Plus16(base, n) % WINDOW == (base + n) % WINDOW;
  }

  lemma Plus16Add(a: u16, m: nat, n: nat)
    requires m + n <= 0x1_0000
    ensures Plus16(Plus16(a, m), n) == Plus16(a, m + n)
  {
  }

  // Inside one window, cursors compare as the distances they stand for.
  lemma CursorsMeet(base: u16, j: nat, k: nat)
    requires j <= WINDOW && k <= WINDOW
    ensures Plus16(base, j) == Plus16(base, k) <==> j == k
  {
  }

  lemma Cursors(base: u16, j: nat, k: nat)
    requires j <= WINDOW && k <= WINDOW
    ensures Plus16(base, j) == Plus16(base, k) <==> j == k
    ensures SeqAfter(Plus16(base, k), Plus16(base, j)) <==> j < k
    ensures Dist(Plus16(base, k), base) == k
  {
  }

  // Where the cursors of a window of n messages stand once k of them are released.
  lemma Released(base: u16, n: nat, s: nat, k: nat)
    requires s <= n <= WINDOW && k <= n
    ensures var b := Plus16(base, k);
            && Plus16(base, n) == Plus16(b, n - k)
            && (b == Plus16(base, n) <==> k == n)
            && (SeqAfter(b, Plus16(base, s)) <==> s < k)
            && (k <= s ==> Plus16(base, s) == Plus16(b, s - k))
  {
  }

  // One test of the release loop, k messages in.
  lemma AckStep(base: u16, ack: u16, k: nat)
    requires k <= WINDOW
    requires k > 0 ==> k <= Dist(ack, base) < 0x8000
    ensures SeqAfter(ack, Plus16(base, k)) <==> k < Dist(ack, base) < 0x8000
  {
  }

  ghost function Queued(rings: seq<Ring<bytes>>): (s: seq<seq<bytes>>)
    requires forall c :: 0 <= c < |rings| ==> rings[c].Valid()
    ensures |s| == |rings|
  {
    seq(|rings|, c requires 0 <= c < |rings| => rings[c].Contents())
  }

  lemma DeliverStep(r: Rx, layout: seq<ChanSlot>, p: Rec, rest: seq<Rec>)
    requires RxValid(r)
    ensures DeliverAll(r, layout, [p] + rest)
         == DeliverAll(MicrochanMachine.Deliver(r, layout, p), layout, rest)
  {
    assert ([p] + rest)[1..] == rest;
  }

  // One turn of the record loop: the record at q and where the next begins, or q again
  // when what is left is no whole record.
  method NextRecord(b: bytes, q: nat) returns (p: Rec, next: nat)
    requires q <= |b|
    ensures q <= next <= |b|
    ensures next == q ==> ParseRecs(b[q..]) == []
    ensures next > q ==> ParseRecs(b[q..]) == [p] + ParseRecs(b[next..])
  {
    ParseStep(b, q);
    p, next := Rec(0, 0, 0, []), q;
    if q + REC <= |b| {
      var dlen := Rd16(b, q + 4);
      if q + REC + dlen <= |b| {
        next := q + REC + dlen;
        p := Rec(b[q], b[q + 1], Rd16(b, q + 2), b[q + REC..next]);
      }
    }
  }

  // The reliable half of a data packet: the slots from cur up to end, while they fit.
  method PackSlots(slots: seq<TxSlot>, first: u16, end: u16, room: int, ghost ms: seq<Msg>)
    returns (rs: seq<Rec>, used: nat, cur: u16)
    requires |slots| == WINDOW && |ms| <= WINDOW
    requires Holds(slots, first, ms) && end == Plus16(first, |ms|)
    ensures var k := Fits(room, ms);
            && rs == RelRecs(first, ms[..k]) && used == Load(ms[..k]) && cur == Plus16(first, k)
  {
    rs, used, cur := [], 0, first;
    ghost var k := 0;
    CursorsMeet(first, 0, |ms|);
    while cur != end
      invariant 0 <= k <= |ms| && cur == Plus16(first, k)
      invariant cur != end <==> k < |ms|
      invariant rs == RelRecs(first, ms[..k])
      invariant k <= Fits(room, ms) && used == Load(ms[..k])
      decreases |ms| - k
    {
      HoldsAt(slots, first, ms, k);
      var s := slots[cur % WINDOW];
      FitsIsLongest(room, ms, k);
      if used + REC + |s.data| > room {
        break;
      }
      RelAppend(first, ms[..k], ms[k]);
      assert ms[..k] + [ms[k]] == ms[..k + 1];
      rs, used := rs + [Rec(s.chan, MT_REL, s.seqno, s.data)], used + REC + |s.data|;
      Plus16Add(first, k, 1);
      CursorsMeet(first, k + 1, |ms|);
      cur := Next16(cur);
      k := k + 1;
    }
  }

  class Endpoint {
    const layout: seq<ChanSlot>
    var hs: Handshake
    var clk: Clock
    var txw: seq<TxSlot>
    var txBase: u16
    var txNext: u16
    var txUnsent: u16
    var txTimer: u32
    var txAttempts: u16
    ghost var tx: Tx                // what the window slots and cursors stand for
    var rxNext: u16
    var ackPending: bool
    var rxq: seq<Ring<bytes>>
    var txu: Ring<Msg>

    ghost predicate TxInv()
      reads this
    {
      && |txw| == WINDOW
      && TxValid(tx)
      && txBase == tx.base && txTimer == tx.timer && txAttempts == tx.attempts
      && txNext == Plus16(txBase, |tx.window|)
      && txUnsent == Plus16(txBase, tx.sent)
      && Holds(txw, txBase, tx.window)
    }

    ghost predicate RxInv()
      reads this
    {
      |rxq| == MAX_CHAN
      && (forall c :: 0 <= c < MAX_CHAN ==> rxq[c].Valid() && |rxq[c].buf| == RECVQ)
    }

    ghost predicate UnrelInv()
      reads this
    {
      txu.Valid() && |txu.buf| == UNREL_TXQ && AllOk(txu.Contents())
    }

    ghost predicate Inv()
      reads this
    {
      TxInv() && RxInv() && UnrelInv() && |layout| == MAX_CHAN
    }

    ghost function RxAbs(): Rx
      requires RxInv()
      reads this
    {
      Rx(rxNext, ackPending, Queued(rxq))
    }

    ghost function Abs(): (e: Ep)
      requires Inv()
      reads this
      ensures MicrochanMachine.Valid(e)
    {
      Ep(hs, clk, tx, RxAbs(), txu.Contents(), layout)
    }

    // mc_open on zeroed storage, with the channel layout opened.
    constructor (server: bool, id: u32, channels: seq<ChanSlot>)
      requires |channels| == MAX_CHAN
      ensures Inv() && Abs() == Fresh(server, id, channels)
    {
      layout := channels;
      hs := Handshake(server, id, Closed, 0, false, false, false, 0, 0);
      clk := Clock(0, 0, 0);
      txw := seq(WINDOW, i => TxSlot(0, 0, []));
      txBase, txNext, txUnsent, txTimer, txAttempts := 0, 0, 0, 0, 0;
      tx := Tx(0, [], 0, 0, 0);
      rxNext, ackPending := 0, false;
      rxq := seq(MAX_CHAN, c => Ring(seq(RECVQ, i => []), 0, 0));
      txu := Ring(seq(UNREL_TXQ, i => Msg(0, [])), 0, 0);
      new;
      assert Queued(rxq) == [[], []];
    }

    method Connect()
      requires Inv()
      modifies `hs
      ensures Inv() && Abs() == old(Abs()).(hs := MicrochanMachine.Connect(old(hs), clk.now))
    {
      hs := hs.(state := Connecting, sendSyn := true,
                timer := Plus32(clk.now, CONNECT_RETRY_MS), attempts := 0);
    }

    // ----- writing and reading -----

    method PutReliable(m: Msg)
      requires TxInv() && MsgOk(m) && |tx.window| < WINDOW
      modifies `txw, `txNext, `tx
      ensures TxInv() && tx == Assign(old(tx), m)
    {
      HoldsPush(txw, txBase, tx.window, m);
      Plus16Add(txBase, |tx.window|, 1);
      txw := txw[txNext % WINDOW := TxSlot(txNext, m.chan, m.data)];
      txNext := Next16(txNext);
      tx := tx.(window := tx.window + [m]);
    }

    method PutUnreliable(m: Msg)
      requires UnrelInv() && MsgOk(m)
      modifies `txu
      ensures UnrelInv() && txu.Contents() == Enqueue(old(txu.Contents()), m)
    {
      if txu.Full() {
        txu := txu.Pop();
      }
      txu := txu.Push(m);
    }

    method Write(ch: nat, data: bytes) returns (rc: int)
      requires Inv()
      modifies this
      ensures Inv() && (Abs(), rc) == MicrochanMachine.Write(old(Abs()), ch, data)
    {
      if ch >= MAX_CHAN || layout[ch].Unused? {
        return MC_ERR;
      }
      if hs.state != Connected {
        return MC_ERR_CLOSED;
      }
      if |data| > MAXMSG {
        return MC_ERR_TOOBIG;
      }
      if layout[ch].kind.Reliable? {
        Cursors(txBase, 0, |tx.window|);
        if Dist(txNext, txBase) >= WINDOW {
          return MC_ERR_AGAIN;
        }
        PutReliable(Msg(ch, data));
      } else {
        PutUnreliable(Msg(ch, data));
      }
      rc := |data|;
    }

    method Read(ch: nat, buflen: nat) returns (r: ReadResult)
      requires Inv()
      modifies `rxq
      ensures Inv() && (RxAbs(), r) == MicrochanMachine.Read(old(RxAbs()), ch, buflen)
    {
      if ch >= MAX_CHAN || rxq[ch].count == 0 {
        return Nothing;
      }
      var m := rxq[ch].Front();
      if |m| > buflen {
        return TooBig;
      }
      rxq := rxq[ch := rxq[ch].Pop()];
      assert Queued(rxq) == Queued(old(rxq))[ch := Queued(old(rxq))[ch][1..]];
      r := Got(m);
    }

    // ----- receiving -----

    // The release loop of process_ack.
    method AdvanceBase(ack: u16) returns (progressed: bool, ghost k: nat)
      requires TxInv()
      modifies `txBase
      ensures k == AckCount(tx, ack) && txBase == Plus16(old(txBase), k)
      ensures progressed <==> k > 0
    {
      progressed := false;
      ghost var base, n := txBase, |tx.window|;
      k := 0;
      AckStep(base, ack, 0);
      while txBase != txNext && SeqAfter(ack, txBase)
        invariant k <= n && txBase == Plus16(base, k)
        invariant k > 0 ==> k <= Dist(ack, base) < 0x8000
        invariant progressed <==> k > 0
        decreases n - k
      {
        AckStep(base, ack, k);
        Cursors(base, k, n);
        Plus16Add(base, k, 1);
        txBase := Next16(txBase);
        progressed := true;
        k := k + 1;
      }
      AckStep(base, ack, k);
      Cursors(base, k, n);
    }

    method ProcessAck(ack: u16)
      requires TxInv()
      modifies `txBase, `txUnsent, `txTimer, `txAttempts, `tx
      ensures TxInv() && tx == MicrochanMachine.ProcessAck(old(tx), clk.now, ack)
    {
      ghost var base, n, s := txBase, |tx.window|, tx.sent;
      var progressed, k := AdvanceBase(ack);
      HoldsDrop(txw, base, tx.window, k);
      Released(base, n, s, k);
      if SeqAfter(txBase, txUnsent) {
        txUnsent := txBase;
      }
      if progressed {
        txAttempts := 0;
        txTimer := if txBase == txNext then 0 else Plus32(clk.now, RT_MS);
      }
      tx := MicrochanMachine.ProcessAck(tx, clk.now, ack);
    }

    method RxqPush(ch: nat, data: bytes)
      requires RxInv() && ch < MAX_CHAN
      modifies `rxq
      ensures RxInv() && RxAbs() == Push(old(RxAbs()), ch, data)
    {
      if rxq[ch].Full() {
        return;
      }
      rxq := rxq[ch := rxq[ch].Push(Truncate(data))];
      assert Queued(rxq) == Queued(old(rxq))[ch := Queued(old(rxq))[ch] + [Truncate(data)]];
    }

    method Deliver(p: Rec)
      requires RxInv() && |layout| == MAX_CHAN
      modifies `rxq, `rxNext, `ackPending
      ensures RxInv() && RxAbs() == MicrochanMachine.Deliver(old(RxAbs()), layout, p)
    {
      var open := p.chan < MAX_CHAN && layout[p.chan].Open?;
      if p.mt == MT_REL {
        if p.seqno == rxNext {
          if open {
            if rxq[p.chan].Full() {
              ackPending := true;
              return;
            }
            RxqPush(p.chan, p.data);
          }
          rxNext := Next16(rxNext);
        }
        ackPending := true;
      } else if open {
        RxqPush(p.chan, p.data);
      }
    }

    // The record loop of mc_feed.
    method DeliverRecords(b: bytes)
      requires RxInv() && |layout| == MAX_CHAN
      modifies `rxq, `rxNext, `ackPending
      ensures RxInv() && RxAbs() == DeliverAll(old(RxAbs()), layout, ParseRecs(b))
    {
      var q, more := 0, true;
      ghost var rest := ParseRecs(b);
      assert b[0..] == b;
      while more
        invariant 0 <= q <= |b| && RxInv()
        invariant rest == if more then ParseRecs(b[q..]) else []
        invariant DeliverAll(RxAbs(), layout, rest) == DeliverAll(old(RxAbs()), layout, ParseRecs(b))
        decreases more, |b| - q
      {
        var p, next := NextRecord(b, q);
        if next == q {
          more, rest := false, [];
        } else {
          rest := ParseRecs(b[next..]);
          DeliverStep(RxAbs(), layout, p, rest);
          Deliver(p);
          q := next;
        }
      }
    }

    method FeedData(pkt: bytes) returns (rc: int)
      requires Inv() && |pkt| >= HDR
      modifies this
      ensures Inv() && (Abs(), rc) == MicrochanMachine.FeedData(old(Abs()), pkt)
    {
      if Rd32(pkt, 0) != hs.localId {
        return MC_ERR_PROTO;
      }
      if hs.server && hs.state == Connecting {
        hs := hs.(state := Connected);
      }
      if hs.state != Connected {
        return MC_OK;
      }
      ProcessAck(Rd16(pkt, 6));
      DeliverRecords(pkt[HDR..]);
      rc := MC_OK;
    }

    method FeedControl(pkt: bytes) returns (rc: int)
      requires |pkt| >= HDR
      modifies `hs
      ensures (hs, rc) == MicrochanMachine.FeedControl(old(hs), clk.now, pkt)
    {
      var id, ptype := Rd32(pkt, 0), pkt[4];
      if ptype == PKT_SYN {
        if !hs.server || |pkt| < HDR + 4 {
          return MC_ERR_PROTO;
        }
        if hs.state == Closed {
          hs := hs.(remoteId := Rd32(pkt, HDR), state := Connecting,
                    timer := Plus32(clk.now, CONNECT_RETRY_MS), attempts := 0);
        }
        if hs.state == Connecting {
          hs := hs.(sendSynack := true);
        }
      } else if ptype == PKT_SYNACK {
        if hs.server || id != hs.localId || |pkt| < HDR + 4 {
          return MC_ERR_PROTO;
        }
        hs := hs.(remoteId := Rd32(pkt, HDR));
        if hs.state == Connecting {
          hs := hs.(state := Connected);
        }
        hs := hs.(sendAck := true);
      } else if ptype == PKT_ACK {
        if !hs.server || id != hs.localId {
          return MC_ERR_PROTO;
        }
        if hs.state == Connecting {
          hs := hs.(state := Connected);
        }
      } else if ptype == PKT_FIN {
        if id != hs.localId {
          return MC_ERR_PROTO;
        }
        hs := hs.(state := Closed);
      } else {
        return MC_ERR_PROTO;
      }
      rc := MC_OK;
    }

    method Feed(pkt: bytes) returns (rc: int)
      requires Inv()
      modifies this
      ensures Inv() && (Abs(), rc) == MicrochanMachine.Feed(old(Abs()), pkt)
    {
      if |pkt| < HDR {
        return MC_ERR_PROTO;
      }
      clk := clk.(lastRecv := clk.now);
      if pkt[4] == PKT_DATA {
        rc := FeedData(pkt);
      } else {
        rc := FeedControl(pkt);
      }
    }

    // ----- sending -----

    method PackReliable(cap: nat) returns (rs: seq<Rec>, used: nat)
      requires TxInv()
      modifies `txUnsent, `tx
      ensures TxInv() && tx == old(tx).(sent := old(tx).sent + |RelOut(old(tx), cap)|)
      ensures rs == RelOutRecs(old(tx), cap) && used == Load(RelOut(old(tx), cap))
    {
      ghost var n, s, ms := |tx.window|, tx.sent, tx.window[tx.sent..];
      HoldsDrop(txw, txBase, tx.window, s);
      Plus16Add(txBase, s, n - s);
      rs, used, txUnsent := PackSlots(txw, txUnsent, txNext, cap - HDR, ms);
      Plus16Add(txBase, s, Fits(cap - HDR, ms));
      tx := tx.(sent := s + Fits(cap - HDR, ms));
    }

    // The unreliable half, while it fits.
    method PackUnreliable(room: int) returns (rs: seq<Rec>)
      requires UnrelInv()
      modifies `txu
      ensures UnrelInv()
      ensures var ms := old(txu.Contents()); var j := Fits(room, ms);
              txu.Contents() == ms[j..] && rs == UnrelRecs(ms[..j])
    {
      rs := [];
      var used: nat := 0;
      ghost var ms, k := txu.Contents(), 0;
      while txu.count > 0
        invariant 0 <= k <= |ms|
        invariant txu.Valid() && |txu.buf| == UNREL_TXQ && txu.Contents() == ms[k..]
        invariant rs == UnrelRecs(ms[..k])
        invariant k <= Fits(room, ms) && used == Load(ms[..k])
        decreases txu.count
      {
        var m := txu.Front();
        assert ms[k..][0] == ms[k] == m;
        FitsIsLongest(room, ms, k);
        if used + REC + |m.data| > room {
          break;
        }
        var r := Rec(m.chan, MT_UNREL, 0, m.data);
        UnrelAppend(ms[..k], m);
        assert ms[..k] + [m] == ms[..k + 1];
        rs, used := rs + [r], used + REC + |m.data|;
        txu := txu.Pop();
        assert ms[k..][1..] == ms[k + 1..];
        k := k + 1;
      }
    }

    method Arm()
      requires TxInv()
      modifies `txTimer, `tx
      ensures TxInv() && tx == Armed(old(tx), clk.now)
    {
      Cursors(txBase, 0, |tx.window|);
      if txBase != txNext && txTimer == 0 {
        txTimer := Plus32(clk.now, RT_MS);
        tx := tx.(timer := txTimer);
      }
    }

    // The records of a data packet, taken off the queues.
    method TakeRecords(cap: nat) returns (rs: seq<Rec>)
      requires Inv()
      modifies `txUnsent, `txTimer, `tx, `txu
      ensures Inv() && rs == DataRecs(old(Abs()), cap)
      ensures tx == TxSend(old(tx), clk.now, cap)
      ensures txu.Contents() == old(Abs()).unrel[UnrelOut(old(tx), old(Abs()).unrel, cap)..]
    {
      var rel, used := PackReliable(cap);
      Arm();
      var unrel := PackUnreliable(cap - HDR - used);
      rs := rel + unrel;
    }

    method SendData(cap: nat) returns (pkt: bytes)
      requires Inv()
      modifies this
      ensures Inv() && Abs() == AfterData(old(Abs()), cap) && pkt == DataPacket(old(Abs()), cap)
    {
      var rs := TakeRecords(cap);
      pkt := Header(hs.remoteId, PKT_DATA, rxNext) + EncodeRecs(rs);
      ackPending := false;
      clk := clk.(lastSend := clk.now);
    }

    method SendControl() returns (pkt: bytes)
      requires ControlDue(hs)
      modifies `hs, `clk
      ensures (hs, pkt) == MicrochanMachine.SendControl(old(hs))
      ensures clk == old(clk).(lastSend := old(clk).now)
    {
      if hs.sendSynack {
        pkt := Header(hs.remoteId, PKT_SYNACK, 0) + Wr32(hs.localId);
        hs := hs.(sendSynack := false);
      } else if hs.sendAck {
        pkt := Header(hs.remoteId, PKT_ACK, 0);
        hs := hs.(sendAck := false);
      } else {
        pkt := Header(0, PKT_SYN, 0) + Wr32(hs.localId);
        hs := hs.(sendSyn := false);
      }
      clk := clk.(lastSend := clk.now);
    }

    method SendNext(buflen: nat) returns (pkt: bytes)
      requires Inv()
      modifies this
      ensures Inv() && (Abs(), pkt) == MicrochanMachine.SendNext(old(Abs()), buflen)
    {
      if buflen < HDR {
        return [];
      }
      if ControlDue(hs) {
        pkt := SendControl();
        return;
      }
      Cursors(txBase, tx.sent, |tx.window|);
      if hs.state != Connected || (txUnsent == txNext && txu.count == 0 && !ackPending) {
        return [];
      }
      pkt := SendData(Min(buflen, MTU));
    }

    // ----- timers -----

    method ServiceHandshake() returns (rc: int)
      modifies `hs
      ensures (hs, rc) == MicrochanMachine.ServiceHandshake(old(hs), clk.now)
    {
      if clk.now >= hs.timer {
        hs := hs.(attempts := Next16(hs.attempts));
        if hs.attempts > CONNECT_RETRIES {
          hs := hs.(state := Closed);
          return MC_ERR;
        }
        if hs.server {
          hs := hs.(sendSynack := true);
        } else {
          hs := hs.(sendSyn := true);
        }
        hs := hs.(timer := Plus32(clk.now, CONNECT_RETRY_MS));
      }
      rc := CONNECT_RETRY_MS;
    }

    method Retransmit() returns (dead: bool)
      requires TxInv()
      modifies `txAttempts, `txUnsent, `txTimer, `tx
      ensures TxInv() && tx == MicrochanMachine.Retransmit(old(tx), clk.now)
      ensures dead <==> Due(old(tx), clk.now) && tx.attempts > RT_ATTEMPTS
    {
      dead := false;
      Cursors(txBase, 0, |tx.window|);
      if txBase != txNext && txTimer != 0 && clk.now >= txTimer {
        txAttempts := Next16(txAttempts);
        if txAttempts > RT_ATTEMPTS {
          dead := true;
        } else {
          txUnsent := txBase;
          txTimer := Plus32(clk.now, Backoff(txAttempts));
        }
        tx := MicrochanMachine.Retransmit(tx, clk.now);
      }
    }

    method ServiceSession() returns (rc: int)
      requires Inv()
      modifies this
      ensures Inv() && (Abs(), rc) == MicrochanMachine.ServiceSession(old(Abs()))
    {
      if Minus32(clk.now, clk.lastRecv) > IDLE_MS {
        hs := hs.(state := Closed);
        return MC_ERR;
      }
      var dead := Retransmit();
      if dead {
        hs := hs.(state := Closed);
        return MC_ERR;
      }
      if Minus32(clk.now, clk.lastSend) > KEEPALIVE_MS {
        ackPending := true;
      }
      rc := RT_MS;
    }

    method Service(now: u32) returns (rc: int)
      requires Inv()
      modifies this
      ensures Inv() && (Abs(), rc) == MicrochanMachine.Service(old(Abs()), now)
    {
      clk := clk.(now := now);
      if hs.state == Connecting {
        rc := ServiceHandshake();
      } else if hs.state == Connected {
        rc := ServiceSession();
      } else {
        rc := MC_ERR;
      }
    }
  }
}
