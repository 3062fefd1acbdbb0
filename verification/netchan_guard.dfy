// The condition a caller can check beforehand: with no DATA frame longer than a share, and so
// with no packet longer than the packet size, nothing is ever written outside its buffer.
module NetchanGuard {
  import opened Bytes
  import opened NetchanPool
  import opened NetchanFrag
  import opened NetchanRecv
  import opened NetchanRead
  import opened NetchanData
  import opened NetchanOverrun
  import opened NetchanSend
  import opened NetchanConn
  import opened NetchanFeed
  import opened NetchanOutput
  import opened NetchanApi

  // ----- a check on the bytes of a packet alone -----

  // The length of the frame at the front, 0 if it is malformed.
  function FrameLen(d: bytes): (n: nat)
    requires d != []
    ensures n <= |d|
  {
    if d[0] == F_PADDING then 1
    else if d[0] == F_REDIRECT then
      if |d| < 12 then 0 else if d[5] == 4 then 12 else if d[5] == 6 && |d| >= 24 then 24 else 0
    else if d[0] == F_OPEN then if |d| < 5 || |d| < 5 + d[4] as int then 0 else 5 + d[4] as int
    else if d[0] == F_DATA then if DataWhole(d) then 8 + Rd16(d, 4) else 0
    else
      var n := if d[0] == F_INIT || d[0] == F_WINDOW then 6
               else if d[0] == F_ACCEPT then 10
               else if d[0] == F_DISCONNECT then 3
               else if d[0] == F_PING || d[0] == F_PONG then 5
               else if d[0] == F_CLOSE || d[0] == F_ACK then 4
               else 0;
      if |d| < n then 0 else n
  }

  // No fragment of a longer message, up to the first malformed frame, is longer than a share.
  predicate SharesOnly(d: bytes, fp: nat)
    decreases |d|
  {
    if d == [] || FrameLen(d) == 0 then true
    else (d[0] == F_DATA ==> WithinShare(DataFrame(d), fp)) && SharesOnly(d[FrameLen(d)..], fp)
  }

  // Frames that all together are no longer than a full fragment with its header pass.
  lemma {:induction false} ShortShares(d: bytes, fp: nat)
    requires |d| <= fp + 8
    ensures SharesOnly(d, fp)
    decreases |d|
  {
    if d != [] && FrameLen(d) != 0 {
      ShortShares(d[FrameLen(d)..], fp);
    }
  }

  function Body(pkt: bytes): bytes {
    if |pkt| < HDR_INIT then [] else if pkt[0] % 2 == 1 then pkt[HDR_INIT..] else if |pkt| < HDR_FULL then [] else pkt[HDR_FULL..]
  }

  // A packet no longer than the packet size passes; one with the short header of a connection
  // being set up, if it is two bytes shorter.
  lemma PacketShares(pkt: bytes, cfg: Config)
    requires ConfigOk(cfg) && |pkt| <= cfg.mtu && (|pkt| > 0 && pkt[0] % 2 == 1 ==> |pkt| <= cfg.mtu - 2)
    ensures SharesOnly(Body(pkt), Share(cfg))
  {
    ShortShares(Body(pkt), Share(cfg));
  }

  // ----- assemblies hold shares only -----

  ghost predicate Tight(slots: seq<Slot>, fp: nat) {
    forall k :: 0 <= k < |slots| && slots[k].Used? ==> Snug(slots[k].ch.rx.pend.frags, fp)
  }

  // Changes that leave the assemblies of every channel alone.
  ghost predicate SameFrags(a: seq<Slot>, b: seq<Slot>) {
    && |b| == |a|
    && forall k :: 0 <= k < |a| && b[k].Used? ==>
         a[k].Used? && b[k].ch.rx.pend.frags == a[k].ch.rx.pend.frags
  }

  lemma SameTight(a: seq<Slot>, b: seq<Slot>, fp: nat)
    requires Tight(a, fp) && SameFrags(a, b)
    ensures Tight(b, fp)
  {
  }

  lemma AddTight(c: Conn, info: Info, limit: u32, fp: nat)
    requires info.id < |c.ids| && Tight(c.slots, fp)
    ensures Tight(AddChan(c, info, limit).slots, fp)
  {
    hide Snug;
    NewRxEmpty();
    EmptyLaid(NewRx(), fp);
  }

  // ----- frames -----

  lemma SessionSlots(c: Conn, d: bytes, newId: u32)
    requires d != []
    ensures var r := SessionFrame(c, d, newId); r.Took? ==> r.c.slots == c.slots && r.c.pool == c.pool
  {
  }

  lemma StepLen(c: Conn, d: bytes, fp: nat, limit: u32, newId: u32)
    requires fp >= 64 && ConnOk(c, fp) && d != []
    ensures var r := FrameStep(c, d, fp, limit, newId); r.Took? ==> r.n == FrameLen(d) > 0
  {
    hide ConnOk, OnOpen, OnData, OnAck, OnClose, OnWindow, Rd16, Rd32;
  }

  lemma OnDataTight(c: Conn, fp: nat, id: byte, f: Frame)
    requires fp >= 64 && ConnOk(c, fp) && Tight(c.slots, fp) && WithinShare(f, fp)
    ensures var c' := OnData(c, fp, id, f); !c'.pool.spilled && Tight(c'.slots, fp)
  {
    hide ChanHeld, Whole, AllHeld, ChanData, Single, Snug, Laid, Overfills, FragsOk, QueueOk, ReorderOk, Windowed, OutOk;
    var k := c.ids[id];
    if k != -1 {
      ChanHolds(c, fp, k);
      ChanDataKept(c.pool, c.slots[k].ch, fp, f);
      ShareNeverOverfills(c.slots[k].ch.rx.pend.frags, fp, f);
    }
  }

  lemma OtherTight(c: Conn, d: bytes, fp: nat, limit: u32, newId: u32)
    requires fp >= 64 && ConnOk(c, fp) && Tight(c.slots, fp) && d != [] && d[0] != F_DATA
    ensures var r := FrameStep(c, d, fp, limit, newId); r.Took? ==> Tight(r.c.slots, fp)
  {
    hide ConnOk, Snug, AddChan, FindVacant, Ack, Rd16, Rd32, Wr32, Wr16;
    ConnTables(c, fp);
    var r := FrameStep(c, d, fp, limit, newId);
    if r.Took? {
      if d[0] <= F_PONG {
        SessionSlots(c, d, newId);
      } else if d[0] == F_OPEN {
        if c.ids[d[1]] == -1 {
          AddTight(c, Info(d[1], KindOf(d[2]), d[3] != 0, Open, 0), limit, fp);
        }
      } else {
        SameTight(c.slots, r.c.slots, fp);
      }
    }
  }

  lemma {:induction false} FramesTight(c: Conn, d: bytes, fp: nat, limit: u32, newId: u32)
    requires fp >= 64 && ConnOk(c, fp) && Tight(c.slots, fp) && SharesOnly(d, fp)
    ensures var c' := Frames(c, d, fp, limit, newId).0; !c'.pool.spilled && Tight(c'.slots, fp)
    decreases |d|
  {
    hide ConnOk, Tight, OnData;
    ConnClean(c, fp);
    if d != [] {
      FrameKeeps(c, d, fp, limit, newId);
      StepLen(c, d, fp, limit, newId);
      match FrameStep(c, d, fp, limit, newId)
      case Bad =>
      case Took(n, c1) =>
        if d[0] == F_DATA {
          OnDataTight(c, fp, d[1], DataFrame(d));
        } else {
          OtherTight(c, d, fp, limit, newId);
          assert !FrameOverfills(c, d, fp);
        }
        FramesTight(c1, d[n..], fp, limit, newId);
    }
  }

  // A packet of shares keeps the connection in order: nothing written outside its buffer.
  lemma FeedTight(c: Conn, pkt: bytes, fp: nat, limit: u32, newId: u32)
    requires fp >= 64 && ConnOk(c, fp) && Tight(c.slots, fp) && SharesOnly(Body(pkt), fp)
    ensures var c' := Feed(c, pkt, fp, limit, newId).0; ConnOk(c', fp) && Tight(c'.slots, fp)
  {
    hide ConnOk, Tight, Frames, SharesOnly, Rd32;
    ConnClean(c, fp);
    FeedKeeps(c, pkt, fp, limit, newId);
    if |pkt| >= HDR_INIT && (pkt[0] % 2 == 1 || |pkt| >= HDR_FULL) {
      FramesTight(c, Body(pkt), fp, limit, newId);
    }
  }

  // ----- calls -----

  lemma OpenTight(c: Conn, fp: nat, code: byte, dir: byte, ct: bytes, limit: u32)
    requires |ct| < 64 && |c.ids| == MAX_IDS && Tight(c.slots, fp)
    ensures Tight(OpenChan(c, code, dir, ct, limit).slots, fp)
  {
    hide Tight, AddChan, Wr32;
    var id := c.peer.nextId;
    var c1 := c.(peer := c.peer.(nextId := TwoOn(id)));
    AddTight(c1, Info(id, KindOf(code), dir == 0, if dir == 0 then Opening else Open, 0), limit, fp);
  }

  lemma WriteSame(c: Conn, fp: nat, id: byte, data: bytes)
    requires fp >= 64 && ConnOk(c, fp)
    ensures SameFrags(c.slots, WriteChan(c, fp, id, data).0.slots)
  {
    hide ConnOk, Write1;
    ConnTables(c, fp);
  }

  lemma ReadSame(c: Conn, fp: nat, id: byte, room: nat)
    requires fp >= 64 && ConnOk(c, fp)
    ensures SameFrags(c.slots, ReadChan(c, fp, id, room).0.slots)
  {
    hide Dequeue, ChansOk, Whole, FreeBag;
  }

  lemma {:induction false} ServiceSame(c: Conn, i: nat, fp: nat, rt: u32, now: u32)
    requires fp >= 64 && ConnOk(c, fp)
    ensures SameFrags(c.slots, ServiceFrom(c, i, fp, rt, now).slots)
    decreases MAX_IDS - i
  {
    hide ConnOk, Retransmit;
    ConnTables(c, fp);
    if i < MAX_IDS {
      var k := c.ids[i];
      if k == -1 {
        ServiceSame(c, i + 1, fp, rt, now);
      } else {
        ServiceKeeps(c, fp, k, rt, now);
        ServiceSame(SetChan(c, k, ChanService(c.slots[k].ch, rt, now)), i + 1, fp, rt, now);
      }
    }
  }

  lemma {:induction false} NotesSame(c: Conn, i: nat, out: bytes, mtu: nat, fp: nat)
    requires fp >= 64 && ConnOk(c, fp)
    ensures SameFrags(c.slots, NotesFrom(c, i, out, mtu, fp).0.slots)
    decreases MAX_IDS - i
  {
    hide ConnOk, NoteOut;
    ConnTables(c, fp);
    if i < MAX_IDS && |out| + 6 <= mtu {
      var k := c.ids[i];
      if k == -1 {
        NotesSame(c, i + 1, out, mtu, fp);
      } else {
        var (ch, out1) := NoteOut(c.slots[k].ch, out, mtu);
        NoteOutInfo(c.slots[k].ch, out, mtu);
        InfoKeeps(c, fp, k, ch);
        NotesSame(SetChan(c, k, ch), i + 1, out1, mtu, fp);
      }
    }
  }

  lemma {:induction false} DataSame(c: Conn, i: nat, out: bytes, mtu: nat, fp: nat, now: u32)
    requires fp >= 64 && ConnOk(c, fp)
    ensures SameFrags(c.slots, DataFrom(c, i, out, mtu, fp, now).0.slots)
    decreases MAX_IDS - i
  {
    hide ChanHeld, Whole, AllHeld, Emit, Single, RxOk, Windowed, SlotOk;
    if i < MAX_IDS && |out| + 9 <= mtu {
      var k := c.ids[i];
      if k == -1 || !MaySend(c.slots[k].ch) {
        DataSame(c, i + 1, out, mtu, fp, now);
      } else {
        var (p, ch, f) := ChanEmit(c.pool, c.slots[k].ch, fp, NextOf(c.slots[k].ch.out), now);
        if |f.data| <= mtu - |out| - 8 {
          EmitKeeps(c, fp, k, now);
          FrameFits(c, fp, k, now);
          DataSame(Stored(c, k, p, ch), i + 1, out + DataBytes(ch.info.id, f), mtu, fp, now);
        }
      }
    }
  }

  lemma SendSame(c: Conn, room: nat, mtu: nat, fp: nat, now: u32)
    requires fp >= 64 && ConnOk(c, fp) && mtu >= HDR_FULL
    ensures SameFrags(c.slots, SendNext(c, room, mtu, fp, now).0.slots)
  {
    hide ConnOk, NotesFrom, DataFrom, HasData;
    var hdr := Header(c);
    if HasData(c, fp) && room >= |hdr| {
      var m := Min(mtu, room);
      var n := Min(|c.ctrl|, m - |hdr|);
      var c1 := Counted1(c).(ctrl := c.ctrl[n..]);
      SessionKeeps(c, c1, fp);
      NotesKeep(c1, 0, hdr + c.ctrl[..n], m, fp);
      NotesSame(c1, 0, hdr + c.ctrl[..n], m, fp);
      var (c2, out) := NotesFrom(c1, 0, hdr + c.ctrl[..n], m, fp);
      DataSame(c2, 0, out, m, fp, now);
    }
  }

  // A call that is not handed a fragment longer than a share.
  predicate Guarded(call: Call, fp: nat) {
    call.CallFeed? ==> SharesOnly(Body(call.pkt), fp)
  }

  lemma DoTight(c: Conn, cfg: Config, call: Call)
    requires ConfigOk(cfg) && ConnOk(c, Share(cfg)) && Tight(c.slots, Share(cfg)) && Guarded(call, Share(cfg))
    ensures var c' := Do(c, cfg, call); ConnOk(c', Share(cfg)) && Tight(c'.slots, Share(cfg))
  {
    hide ConnOk, Tight, Feed, SendNext, ServiceFrom, WriteChan, ReadChan, OpenChan, SharesOnly, SameFrags;
    var fp, c' := Share(cfg), Do(c, cfg, call);
    ConnTables(c, fp);
    DoKeeps(c, cfg, call);
    match call
    case CallOpen(code, dir, ct) => OpenTight(c, fp, code, dir, if |ct| < 64 then ct else ct[..63], cfg.limit);
    case CallClose(id) => CloseSame(c, fp, id); SameTight(c.slots, c'.slots, fp);
    case CallWrite(id, data) => WriteSame(c, fp, id, data); SameTight(c.slots, c'.slots, fp);
    case CallRead(id, room) => ReadSame(c, fp, id, room); SameTight(c.slots, c'.slots, fp);
    case CallFeed(pkt, newId) => FeedTight(c, pkt, fp, cfg.limit, newId);
    case CallSend(room, now) => SendSame(c, room, cfg.mtu, fp, now); SameTight(c.slots, c'.slots, fp);
    case CallService(now) => ServiceSame(c, 0, fp, cfg.rt, now); SameTight(c.slots, c'.slots, fp);
    case CallConnect(newId) =>
    case CallAccept(idle) =>
    case CallDisconnect =>
  }

  lemma CloseSame(c: Conn, fp: nat, id: byte)
    requires fp >= 64 && ConnOk(c, fp)
    ensures SameFrags(c.slots, CloseChan(c, fp, id).slots)
  {
    hide ConnOk;
    ConnTables(c, fp);
  }

  lemma StartTight(server: bool, fp: nat)
    ensures Tight(Start(server).slots, fp)
  {
    hide Repeat;
    RepeatAll(MAX_CHAN, Vacant);
  }

  lemma {:induction false} RunTight(c: Conn, cfg: Config, calls: seq<Call>)
    requires ConfigOk(cfg) && ConnOk(c, Share(cfg)) && Tight(c.slots, Share(cfg))
    requires forall i :: 0 <= i < |calls| ==> Guarded(calls[i], Share(cfg))
    ensures ConnOk(DoAll(c, cfg, calls), Share(cfg))
    decreases |calls|
  {
    hide ConnOk, Tight, Guarded, Do;
    if calls != [] {
      var c1 := Do(c, cfg, calls[0]);
      DoKeeps(c, cfg, calls[0]);
      DoTight(c, cfg, calls[0]);
      ConnClean(c1, Share(cfg));
      RunTight(c1, cfg, calls[1..]);
    }
  }

  // Main result: from the start, after any calls and any packets with no fragment longer than
  // a share, no write has left its buffer and the pool is partitioned among the channels.
  lemma GuardedRunsNeverSpill(server: bool, cfg: Config, calls: seq<Call>)
    requires ConfigOk(cfg) && forall i :: 0 <= i < |calls| ==> Guarded(calls[i], Share(cfg))
    ensures ConnOk(Start(server), Share(cfg))
    ensures var c := DoAll(Start(server), cfg, calls);
            !c.pool.spilled && ConnOk(c, Share(cfg)) && Whole(FreeBag(c.pool) + AllHeld(c.slots))
  {
    hide Start, DoAll, Guarded, Tight, ChansOk, Whole, AllHeld;
    StartOk(server, Share(cfg));
    StartTight(server, Share(cfg));
    RunTight(Start(server), cfg, calls);
  }
}
