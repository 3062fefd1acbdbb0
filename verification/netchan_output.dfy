// What a connection sends: control frames, then acknowledgements and window updates, then
// one fragment per channel; and why asking for packets until there are none comes to an end.
module NetchanOutput {
  import opened Bytes
  import opened NetchanPool
  import opened NetchanFrag
  import opened NetchanRecv
  import opened NetchanSend
  import opened NetchanConn
  import opened NetchanFeed

  function NextOf(o: Out): int
    requires |o.cells| == OUTGOING_SLOTS && o.head < OUTGOING_SLOTS && o.tail < OUTGOING_SLOTS
  {
    NextSendable(o.cells, o.head, o.tail)
  }

  // ----- acknowledgements and window updates -----

  function Room(ch: Chan): u32 {
    if ch.notes.limit > ch.rx.queue.buffered then ch.notes.limit - ch.rx.queue.buffered else 0
  }

  // What one channel owes, as far as it fits.
  function NoteOut(ch: Chan, out: bytes, mtu: nat): (Chan, bytes) {
    var ack := ch.notes.ack && |out| + 4 <= mtu;
    var out1 := if ack then out + AckBytes(ch.info.id, ch.notes.acked) else out;
    var update := ch.notes.update && |out1| + 6 <= mtu;
    (ch.(notes := ch.notes.(ack := ch.notes.ack && !ack, update := ch.notes.update && !update)),
     if update then out1 + WindowBytes(ch.info.id, Room(ch)) else out1)
  }

  function NotesFrom(c: Conn, i: nat, out: bytes, mtu: nat, fp: nat): (Conn, bytes)
    requires fp >= 64 && ConnOk(c, fp)
    decreases MAX_IDS - i
  {
    if i >= MAX_IDS || |out| + 6 > mtu then (c, out)
    else
      var k := c.ids[i];
      if k == -1 then NotesFrom(c, i + 1, out, mtu, fp)
      else
        var (ch, out1) := NoteOut(c.slots[k].ch, out, mtu);
        InfoKeeps(c, fp, k, ch);
        NotesFrom(SetChan(c, k, ch), i + 1, out1, mtu, fp)
  }

  // ----- data -----

  predicate MaySend(ch: Chan)
    requires |ch.out.cells| == OUTGOING_SLOTS && ch.out.head < OUTGOING_SLOTS && ch.out.tail < OUTGOING_SLOTS
  {
    ch.info.sends && ch.info.status == Open && NextOf(ch.out) != -1
  }

  // The next fragment of each open channel in turn, until one does not fit.
  function DataFrom(c: Conn, i: nat, out: bytes, mtu: nat, fp: nat, now: u32): (Conn, bytes)
    requires fp >= 64 && ConnOk(c, fp)
    decreases MAX_IDS - i
  {
    if i >= MAX_IDS || |out| + 9 > mtu then (c, out)
    else
      var k := c.ids[i];
      if k == -1 || !MaySend(c.slots[k].ch) then DataFrom(c, i + 1, out, mtu, fp, now)
      else
        var (p, ch, f) := ChanEmit(c.pool, c.slots[k].ch, fp, NextOf(c.slots[k].ch.out), now);
        if |f.data| > mtu - |out| - 8 then (c, out)
        else
          EmitKeeps(c, fp, k, now);
          FrameFits(c, fp, k, now);
          DataFrom(Stored(c, k, p, ch), i + 1, out + DataBytes(ch.info.id, f), mtu, fp, now)
  }

  lemma EmitKeeps(c: Conn, fp: nat, k: nat, now: u32)
    requires fp >= 64 && ConnOk(c, fp) && k < MAX_CHAN && c.slots[k].Used? && MaySend(c.slots[k].ch)
    ensures var (p, ch, f) := ChanEmit(c.pool, c.slots[k].ch, fp, NextOf(c.slots[k].ch.out), now);
            ConnOk(Stored(c, k, p, ch), fp)
  {
    hide ChanHeld, Whole, AllHeld, ChanEmit, Single, RxOk, Windowed, SlotOk;
    ChanHolds(c, fp, k);
    var s := NextOf(c.slots[k].ch.out);
    ChanEmitKept(c.pool, c.slots[k].ch, fp, s, now);
    var (p, ch, f) := ChanEmit(c.pool, c.slots[k].ch, fp, s, now);
    ChanStepKeeps(c, fp, k, p, ch);
  }

  // A fragment always fits its header fields, and is no longer than its share.
  lemma FrameFits(c: Conn, fp: nat, k: nat, now: u32)
    requires fp >= 64 && ConnOk(c, fp) && k < MAX_CHAN && c.slots[k].Used? && MaySend(c.slots[k].ch)
    ensures var (p, ch, f) := ChanEmit(c.pool, c.slots[k].ch, fp, NextOf(c.slots[k].ch.out), now);
            f.idx < f.total <= MAX_FRAGS && |f.data| <= fp && |f.data| <= MAX_MSG
  {
    hide Whole, AllHeld, Single, RxOk, Windowed, FragTotal, Advance;
    var o := c.slots[k].ch.out;
    var s := NextOf(o);
    assert SlotOk(o, s, fp);
    TotalBounded(o.cells[s].len, fp);
  }

  // ----- a packet -----

  predicate Owes(ch: Chan) {
    ch.notes.ack || ch.notes.update
  }

  // Whether the channel under id i has anything to send.
  predicate DueAt(c: Conn, i: nat, fp: nat)
    requires fp >= 64 && ConnOk(c, fp) && i < MAX_IDS
  {
    c.ids[i] != -1 && (Owes(c.slots[c.ids[i]].ch) || MaySend(c.slots[c.ids[i]].ch))
  }

  predicate HasData(c: Conn, fp: nat)
    requires fp >= 64 && ConnOk(c, fp)
  {
    c.ctrl != [] || exists i :: 0 <= i < MAX_IDS && DueAt(c, i, fp)
  }

  function Header(c: Conn): bytes {
    if c.peer.state == Connecting && !c.peer.server then [1] + Wr32(c.peer.localId)
    else [2] + Wr32(c.peer.remoteId) + Wr16(c.peer.packet)
  }

  function Counted1(c: Conn): Conn {
    if c.peer.state == Connecting && !c.peer.server then c else c.(peer := c.peer.(packet := Next16(c.peer.packet)))
  }

  function SendNext(c: Conn, room: nat, mtu: nat, fp: nat, now: u32): (Conn, bytes)
    requires fp >= 64 && ConnOk(c, fp) && mtu >= HDR_FULL
  {
    var hdr := Header(c);
    if !HasData(c, fp) || room < |hdr| then (c, [])
    else
      var m := Min(mtu, room);
      var n := Min(|c.ctrl|, m - |hdr|);
      var c1 := Counted1(c).(ctrl := c.ctrl[n..]);
      SessionKeeps(c, c1, fp);
      var (c2, out) := NotesFrom(c1, 0, hdr + c.ctrl[..n], m, fp);
      NotesKeep(c1, 0, hdr + c.ctrl[..n], m, fp);
      DataFrom(c2, 0, out, m, fp, now)
  }

  lemma {:induction false} NotesKeep(c: Conn, i: nat, out: bytes, mtu: nat, fp: nat)
    requires fp >= 64 && ConnOk(c, fp)
    ensures ConnOk(NotesFrom(c, i, out, mtu, fp).0, fp)
    decreases MAX_IDS - i
  {
    hide ConnOk, NoteOut;
    ConnTables(c, fp);
    if i < MAX_IDS && |out| + 6 <= mtu {
      var k := c.ids[i];
      if k == -1 {
        NotesKeep(c, i + 1, out, mtu, fp);
      } else {
        var (ch, out1) := NoteOut(c.slots[k].ch, out, mtu);
        NoteOutInfo(c.slots[k].ch, out, mtu);
        InfoKeeps(c, fp, k, ch);
        NotesKeep(SetChan(c, k, ch), i + 1, out1, mtu, fp);
      }
    }
  }

  lemma NoteOutInfo(ch: Chan, out: bytes, mtu: nat)
    ensures var (ch', out') := NoteOut(ch, out, mtu); ch' == ch.(notes := ch'.notes)
  {
  }

  lemma {:induction false} DataKeep(c: Conn, i: nat, out: bytes, mtu: nat, fp: nat, now: u32)
    requires fp >= 64 && ConnOk(c, fp)
    ensures ConnOk(DataFrom(c, i, out, mtu, fp, now).0, fp)
    decreases MAX_IDS - i
  {
    hide ChanHeld, Whole, AllHeld, ChanEmit, Single, RxOk, Windowed, SlotOk;
    if i < MAX_IDS && |out| + 9 <= mtu {
      var k := c.ids[i];
      if k == -1 || !MaySend(c.slots[k].ch) {
        DataKeep(c, i + 1, out, mtu, fp, now);
      } else {
        var (p, ch, f) := ChanEmit(c.pool, c.slots[k].ch, fp, NextOf(c.slots[k].ch.out), now);
        if |f.data| <= mtu - |out| - 8 {
          EmitKeeps(c, fp, k, now);
          FrameFits(c, fp, k, now);
          DataKeep(Stored(c, k, p, ch), i + 1, out + DataBytes(ch.info.id, f), mtu, fp, now);
        }
      }
    }
  }

  lemma SendKeeps(c: Conn, room: nat, mtu: nat, fp: nat, now: u32)
    requires fp >= 64 && ConnOk(c, fp) && mtu >= HDR_FULL
    ensures ConnOk(SendNext(c, room, mtu, fp, now).0, fp)
  {
    hide ConnOk, NotesFrom, DataFrom, HasData;
    var hdr := Header(c);
    if HasData(c, fp) && room >= |hdr| {
      var m := Min(mtu, room);
      var n := Min(|c.ctrl|, m - |hdr|);
      var c1 := Counted1(c).(ctrl := c.ctrl[n..]);
      SessionKeeps(c, c1, fp);
      NotesKeep(c1, 0, hdr + c.ctrl[..n], m, fp);
      var (c2, out) := NotesFrom(c1, 0, hdr + c.ctrl[..n], m, fp);
      DataKeep(c2, 0, out, m, fp, now);
    }
  }

  // ----- the size of a packet -----

  lemma {:induction false} NotesFit(c: Conn, i: nat, out: bytes, mtu: nat, fp: nat)
    requires fp >= 64 && ConnOk(c, fp) && |out| <= mtu
    ensures |NotesFrom(c, i, out, mtu, fp).1| <= mtu
    decreases MAX_IDS - i
  {
    hide ConnOk;
    ConnTables(c, fp);
    if i < MAX_IDS && |out| + 6 <= mtu {
      var k := c.ids[i];
      if k == -1 {
        NotesFit(c, i + 1, out, mtu, fp);
      } else {
        var (ch, out1) := NoteOut(c.slots[k].ch, out, mtu);
        InfoKeeps(c, fp, k, ch);
        NotesFit(SetChan(c, k, ch), i + 1, out1, mtu, fp);
      }
    }
  }

  lemma {:induction false} DataFit(c: Conn, i: nat, out: bytes, mtu: nat, fp: nat, now: u32)
    requires fp >= 64 && ConnOk(c, fp) && |out| <= mtu
    ensures |DataFrom(c, i, out, mtu, fp, now).1| <= mtu
    decreases MAX_IDS - i
  {
    hide ChanHeld, Whole, AllHeld, ChanEmit, Single, RxOk, Windowed, SlotOk, Wr16;
    if i < MAX_IDS && |out| + 9 <= mtu {
      var k := c.ids[i];
      if k == -1 || !MaySend(c.slots[k].ch) {
        DataFit(c, i + 1, out, mtu, fp, now);
      } else {
        var (p, ch, f) := ChanEmit(c.pool, c.slots[k].ch, fp, NextOf(c.slots[k].ch.out), now);
        if |f.data| <= mtu - |out| - 8 {
          EmitKeeps(c, fp, k, now);
          FrameFits(c, fp, k, now);
          DataFit(Stored(c, k, p, ch), i + 1, out + DataBytes(ch.info.id, f), mtu, fp, now);
        }
      }
    }
  }

  // No packet is longer than the mtu or the buffer offered for it.
  lemma PacketFits(c: Conn, room: nat, mtu: nat, fp: nat, now: u32)
    requires fp >= 64 && ConnOk(c, fp) && mtu >= HDR_FULL
    ensures |SendNext(c, room, mtu, fp, now).1| <= Min(mtu, room)
  {
    hide ConnOk, NotesFrom, DataFrom, HasData;
    var hdr := Header(c);
    if HasData(c, fp) && room >= |hdr| {
      var m := Min(mtu, room);
      var n := Min(|c.ctrl|, m - |hdr|);
      var c1 := Counted1(c).(ctrl := c.ctrl[n..]);
      SessionKeeps(c, c1, fp);
      NotesKeep(c1, 0, hdr + c.ctrl[..n], m, fp);
      NotesFit(c1, 0, hdr + c.ctrl[..n], m, fp);
      var (c2, out) := NotesFrom(c1, 0, hdr + c.ctrl[..n], m, fp);
      DataFit(c2, 0, out, m, fp, now);
    }
  }

  // ----- the measure -----

  // Fragments not yet sent.
  ghost function Unsent(cells: seq<OutCell>): nat {
    if cells == [] then 0 else Unsent(cells[..|cells| - 1]) + UnsentOf(cells[|cells| - 1])
  }

  ghost function UnsentOf(c: OutCell): nat {
    if Sendable1(c) then c.meta.total - c.meta.sent else 0
  }

  lemma {:induction false} UnsentUpdate(cells: seq<OutCell>, i: nat, c: OutCell)
    requires i < |cells|
    ensures Unsent(cells[i := c]) + UnsentOf(cells[i]) == Unsent(cells) + UnsentOf(c)
  {
    var n := |cells| - 1;
    if i < n {
      UnsentUpdate(cells[..n], i, c);
      assert cells[i := c][..n] == cells[..n][i := c];
    } else {
      assert cells[i := c][..n] == cells[..n];
    }
  }

  ghost function ChanWork(ch: Chan): nat {
    Flag(ch.notes.ack) + Flag(ch.notes.update) + Unsent(ch.out.cells)
  }

  ghost function SlotWork(s: Slot): nat {
    if s.Vacant? then 0 else ChanWork(s.ch)
  }

  ghost function AllWork(slots: seq<Slot>): nat {
    if slots == [] then 0 else AllWork(slots[..|slots| - 1]) + SlotWork(slots[|slots| - 1])
  }

  // Everything still to be sent.
  ghost function Work(c: Conn): nat {
    |c.ctrl| + AllWork(c.slots)
  }

  lemma {:induction false} AllWorkUpdate(slots: seq<Slot>, k: nat, s: Slot)
    requires k < |slots|
    ensures AllWork(slots[k := s]) + SlotWork(slots[k]) == AllWork(slots) + SlotWork(s)
  {
    hide SlotWork;
    var n := |slots| - 1;
    if k < n {
      AllWorkUpdate(slots[..n], k, s);
      assert slots[k := s][..n] == slots[..n][k := s];
    } else {
      assert slots[k := s][..n] == slots[..n];
    }
  }

  ghost predicate OwedAt(c: Conn, j: nat, fp: nat)
    requires fp >= 64 && ConnOk(c, fp)
  {
    j < MAX_IDS && c.ids[j] != -1 && Owes(c.slots[c.ids[j]].ch)
  }

  // Notes go out or stay; the first one owed always fits a packet with room for it.
  lemma {:induction false} NotesLower(c: Conn, i: nat, out: bytes, mtu: nat, fp: nat, j: nat)
    requires fp >= 64 && ConnOk(c, fp)
    ensures var (c', out') := NotesFrom(c, i, out, mtu, fp);
            && Work(c') <= Work(c) && |out| <= |out'|
            && (i <= j && OwedAt(c, j, fp) && |out| + 6 <= mtu ==> Work(c') < Work(c))
    decreases MAX_IDS - i
  {
    hide ConnOk, AllWork, SlotWork, NoteOut, Owes;
    ConnTables(c, fp);
    if i < MAX_IDS && |out| + 6 <= mtu {
      var k := c.ids[i];
      if k == -1 {
        NotesLower(c, i + 1, out, mtu, fp, j);
      } else {
        var (ch, out1) := NoteOut(c.slots[k].ch, out, mtu);
        NoteOutInfo(c.slots[k].ch, out, mtu);
        InfoKeeps(c, fp, k, ch);
        AllWorkUpdate(c.slots, k, Used(ch));
        NoteLowers(c.slots[k].ch, out, mtu);
        var c1 := SetChan(c, k, ch);
        NotesLower(c1, i + 1, out1, mtu, fp, j);
        if i < j && OwedAt(c, j, fp) && !Owes(c.slots[k].ch) {
          assert c.slots[k := Used(ch)] == c.slots;
          assert OwedAt(c1, j, fp);
        }
      }
    }
  }

  lemma NoteLowers(ch: Chan, out: bytes, mtu: nat)
    ensures var (ch', out') := NoteOut(ch, out, mtu);
            && SlotWork(Used(ch')) <= SlotWork(Used(ch)) && |out| <= |out'|
            && (Owes(ch) && |out| + 6 <= mtu ==> SlotWork(Used(ch')) < SlotWork(Used(ch)))
            && (!Owes(ch) ==> ch' == ch && out' == out)
  {
    hide Unsent;
  }

  // A fragment sent is one fewer to send.
  lemma EmitLowers(p: Pool, ch: Chan, fp: nat, k: nat, now: u32)
    requires fp > 0 && OutOk(ch.out, fp) && k < OUTGOING_SLOTS && Sendable1(ch.out.cells[k])
    ensures var (p', ch', f) := ChanEmit(p, ch, fp, k, now);
            SlotWork(Used(ch')) < SlotWork(Used(ch))
  {
    hide Unsent, SlotOk, FragTotal, Frag;
    UnsentUpdate(ch.out.cells, k, ChanEmit(p, ch, fp, k, now).1.out.cells[k]);
  }

  ghost predicate SendableAt(c: Conn, j: nat, fp: nat)
    requires fp >= 64 && ConnOk(c, fp)
  {
    j < MAX_IDS && c.ids[j] != -1 && MaySend(c.slots[c.ids[j]].ch)
  }

  lemma {:induction false} DataLower(c: Conn, i: nat, out: bytes, mtu: nat, fp: nat, now: u32, j: nat)
    requires fp >= 64 && ConnOk(c, fp)
    ensures var (c', out') := DataFrom(c, i, out, mtu, fp, now);
            && Work(c') <= Work(c) && |out| <= |out'|
            && (i <= j && SendableAt(c, j, fp) && |out| + 8 + fp <= mtu ==> Work(c') < Work(c))
    decreases MAX_IDS - i
  {
    hide ChanHeld, Whole, AllHeld, ChanEmit, Single, RxOk, Windowed, SlotOk, AllWork, SlotWork;
    if i < MAX_IDS && |out| + 9 <= mtu {
      var k := c.ids[i];
      if k == -1 || !MaySend(c.slots[k].ch) {
        DataLower(c, i + 1, out, mtu, fp, now, j);
      } else {
        var s := NextOf(c.slots[k].ch.out);
        var (p, ch, f) := ChanEmit(c.pool, c.slots[k].ch, fp, s, now);
        FrameFits(c, fp, k, now);
        if |f.data| <= mtu - |out| - 8 {
          EmitKeeps(c, fp, k, now);
          EmitLowers(c.pool, c.slots[k].ch, fp, s, now);
          AllWorkUpdate(c.slots, k, Used(ch));
          DataLower(Stored(c, k, p, ch), i + 1, out + DataBytes(ch.info.id, f), mtu, fp, now, j);
        }
      }
    }
  }

  // With nothing queued or owed, the pass over the notes changes nothing.
  lemma {:induction false} NotesIdle(c: Conn, i: nat, out: bytes, mtu: nat, fp: nat)
    requires fp >= 64 && ConnOk(c, fp)
    requires forall j :: i <= j ==> !OwedAt(c, j, fp)
    ensures NotesFrom(c, i, out, mtu, fp) == (c, out)
    decreases MAX_IDS - i
  {
    hide ChansOk, Whole, AllHeld;
    if i < MAX_IDS && |out| + 6 <= mtu {
      assert !OwedAt(c, i, fp);
      var k := c.ids[i];
      if k != -1 {
        NoteLowers(c.slots[k].ch, out, mtu);
        assert c.slots[k := Used(c.slots[k].ch)] == c.slots;
      }
      NotesIdle(c, i + 1, out, mtu, fp);
    }
  }

  // Main result: every packet handed out is progress, so asking until none comes ends.
  lemma SendNextLowersWork(c: Conn, room: nat, mtu: nat, fp: nat, now: u32)
    requires mtu >= 79 && fp == mtu - HDR_FULL - 8 && ConnOk(c, fp) && room >= mtu
    ensures var (c', pkt) := SendNext(c, room, mtu, fp, now);
            && (pkt == [] <==> !HasData(c, fp))
            && (if pkt == [] then c' == c else Work(c') < Work(c))
  {
    hide ConnOk, NotesFrom, DataFrom, Owes, MaySend, AllWork;
    ConnTables(c, fp);
    var hdr := Header(c);
    if HasData(c, fp) {
      var n := Min(|c.ctrl|, mtu - |hdr|);
      var c1 := Counted1(c).(ctrl := c.ctrl[n..]);
      SessionKeeps(c, c1, fp);
      var out1 := hdr + c.ctrl[..n];
      NotesKeep(c1, 0, out1, mtu, fp);
      var (c2, out) := NotesFrom(c1, 0, out1, mtu, fp);
      if c.ctrl == [] {
        var i :| 0 <= i < MAX_IDS && DueAt(c, i, fp);
        OnlyDueLowers(c1, out1, mtu, fp, now, i);
      } else {
        NotesLower(c1, 0, out1, mtu, fp, 0);
        DataLower(c2, 0, out, mtu, fp, now, 0);
      }
    }
  }

  lemma OnlyDueLowers(c: Conn, out: bytes, mtu: nat, fp: nat, now: u32, i: nat)
    requires mtu >= 79 && fp == mtu - HDR_FULL - 8 && ConnOk(c, fp)
    requires i < MAX_IDS && DueAt(c, i, fp) && |out| <= HDR_FULL
    ensures ConnOk(NotesFrom(c, 0, out, mtu, fp).0, fp)
    ensures var (c2, out2) := NotesFrom(c, 0, out, mtu, fp);
            var (c3, out3) := DataFrom(c2, 0, out2, mtu, fp, now);
            Work(c3) < Work(c) && |out| <= |out3|
  {
    hide ConnOk, NotesFrom, DataFrom, Owes, MaySend, AllWork;
    ConnTables(c, fp);
    NotesKeep(c, 0, out, mtu, fp);
    var (c2, out2) := NotesFrom(c, 0, out, mtu, fp);
    if j: nat :| OwedAt(c, j, fp) {
      NotesLower(c, 0, out, mtu, fp, j);
      DataLower(c2, 0, out2, mtu, fp, now, 0);
    } else {
      NotesIdle(c, 0, out, mtu, fp);
      assert !OwedAt(c, i, fp);
      DataLower(c, 0, out, mtu, fp, now, i);
    }
  }
}
