// From one end of a connection to the other: what a packet says, frame by frame, in terms of
// the connection that sent it, and what the end it is fed to makes of that.
module NetchanWire {
  import opened Bytes
  import opened NetchanPool
  import opened NetchanFrag
  import opened NetchanRecv
  import opened NetchanSend
  import opened NetchanConn
  import opened NetchanFeed
  import opened NetchanOutput

  // ----- what a packet says about channels -----

  datatype Item = AckItem(id: byte, acked: u16) | WindowItem(id: byte, window: u32) | DataItem(id: byte, f: Frame)

  predicate Encodes(x: Item) {
    x.DataItem? ==> x.f.idx < 0x100 && x.f.total < 0x100 && |x.f.data| < 0x1_0000
  }

  function ItemBytes(x: Item): (b: bytes)
    requires Encodes(x)
    ensures b != []
  {
    match x
    case AckItem(id, acked) => AckBytes(id, acked)
    case WindowItem(id, window) => WindowBytes(id, window)
    case DataItem(id, f) => DataBytes(id, f)
  }

  predicate AllEncode(xs: seq<Item>) {
    forall i :: 0 <= i < |xs| ==> Encodes(xs[i])
  }

  function Wire(xs: seq<Item>): bytes
    requires AllEncode(xs)
  {
    if xs == [] then [] else ItemBytes(xs[0]) + Wire(xs[1..])
  }

  lemma {:induction false} WireConcat(xs: seq<Item>, ys: seq<Item>)
    requires AllEncode(xs) && AllEncode(ys)
    ensures AllEncode(xs + ys) && Wire(xs + ys) == Wire(xs) + Wire(ys)
  {
    hide ItemBytes;
    if xs == [] {
      assert xs + ys == ys;
    } else {
      assert (xs + ys)[1..] == xs[1..] + ys;
      WireConcat(xs[1..], ys);
    }
  }

  // ----- the notes -----

  // What of a channel's notes has gone out between these two states of it: the number it
  // owes, and the room it has, under its own id.
  function NoteItems(id: byte, ch: Chan, ch': Chan): (xs: seq<Item>)
    ensures AllEncode(xs)
  {
    (if ch.notes.ack && !ch'.notes.ack then [AckItem(id, ch.notes.acked)] else [])
    + (if ch.notes.update && !ch'.notes.update
       then [WindowItem(id, if ch.notes.limit > ch.rx.queue.buffered then ch.notes.limit - ch.rx.queue.buffered else 0)]
       else [])
  }

  // Notes are given up and nothing else changes.
  predicate NotesGiven(ch: Chan, ch': Chan) {
    && ch' == ch.(notes := ch.notes.(ack := ch'.notes.ack, update := ch'.notes.update))
    && (ch'.notes.ack ==> ch.notes.ack) && (ch'.notes.update ==> ch.notes.update)
  }

  ghost predicate OnlyNotes(c: Conn, c': Conn) {
    && c' == c.(slots := c'.slots) && |c'.slots| == |c.slots|
    && forall k :: 0 <= k < |c.slots| ==>
         if c.slots[k].Vacant? then c'.slots[k] == c.slots[k]
         else c'.slots[k].Used? && NotesGiven(c.slots[k].ch, c'.slots[k].ch)
  }

  function NotesSaid(c: Conn, c': Conn, i: nat): (xs: seq<Item>)
    requires |c.ids| == MAX_IDS && |c'.slots| == |c.slots|
    requires forall j :: 0 <= j < MAX_IDS && c.ids[j] != -1 ==> 0 <= c.ids[j] < |c.slots|
    ensures AllEncode(xs)
    decreases MAX_IDS - i
  {
    if i >= MAX_IDS then []
    else
      var k := c.ids[i];
      (if k == -1 || c.slots[k].Vacant? || c'.slots[k].Vacant? then []
       else NoteItems(i, c.slots[k].ch, c'.slots[k].ch))
      + NotesSaid(c, c', i + 1)
  }

  lemma {:induction false} NothingSaid(c: Conn, i: nat)
    requires TablesOk(c)
    ensures NotesSaid(c, c, i) == [] && OnlyNotes(c, c)
    decreases MAX_IDS - i
  {
    if i < MAX_IDS {
      NothingSaid(c, i + 1);
    }
  }

  // The slots of the ids below i are as they were.
  ghost predicate Before(c: Conn, c': Conn, i: nat)
    requires TablesOk(c) && |c'.slots| == |c.slots|
  {
    forall j :: 0 <= j < i && j < MAX_IDS && c.ids[j] != -1 ==> c'.slots[c.ids[j]] == c.slots[c.ids[j]]
  }

  // What is said from id i on is told by the slots of the ids from i on.
  lemma {:induction false} SaidSame(c: Conn, d: Conn, c': Conn, i: nat)
    requires TablesOk(c) && TablesOk(d) && d.ids == c.ids && |c'.slots| == |c.slots|
    requires forall j :: i <= j < MAX_IDS && c.ids[j] != -1 ==> d.slots[c.ids[j]] == c.slots[c.ids[j]]
    ensures NotesSaid(d, c', i) == NotesSaid(c, c', i)
    decreases MAX_IDS - i
  {
    if i < MAX_IDS {
      SaidSame(c, d, c', i + 1);
    }
  }

  lemma NoteSays(ch: Chan, out: bytes, mtu: nat, id: byte)
    requires ch.info.id == id
    ensures var (ch', out') := NoteOut(ch, out, mtu);
            NotesGiven(ch, ch') && out' == out + Wire(NoteItems(id, ch, ch'))
  {
    hide Wr16, Wr32;
    var (ch', out') := NoteOut(ch, out, mtu);
    var xs := NoteItems(id, ch, ch');
    if xs != [] {
      assert Wire(xs) == ItemBytes(xs[0]) + Wire(xs[1..]);
      if |xs| == 2 {
        assert xs[1..][1..] == [];
        assert Wire(xs[1..]) == ItemBytes(xs[1]) + Wire(xs[1..][1..]);
      }
    }
  }

  // One channel's part of the pass over the notes.
  lemma NoteStep(c: Conn, i: nat, out: bytes, mtu: nat, fp: nat)
    requires fp >= 64 && ConnOk(c, fp) && i < MAX_IDS && c.ids[i] != -1
    ensures var k := c.ids[i];
            var ch := c.slots[k].ch;
            var (ch1, out1) := NoteOut(ch, out, mtu);
            && ConnOk(SetChan(c, k, ch1), fp) && NotesGiven(ch, ch1) && out1 == out + Wire(NoteItems(i, ch, ch1))
            && TablesOk(SetChan(c, k, ch1))
  {
    hide ConnOk, NoteOut, NoteItems, Wire;
    ConnTables(c, fp);
    var k := c.ids[i];
    NoteSays(c.slots[k].ch, out, mtu, i);
    InfoKeeps(c, fp, k, NoteOut(c.slots[k].ch, out, mtu).0);
    ConnTables(SetChan(c, k, NoteOut(c.slots[k].ch, out, mtu).0), fp);
  }

  // Everything the pass over the notes writes, and everything it changes.
  lemma {:induction false} NotesSay(c: Conn, i: nat, out: bytes, mtu: nat, fp: nat)
    requires fp >= 64 && ConnOk(c, fp)
    ensures var (c', out') := NotesFrom(c, i, out, mtu, fp);
            && TablesOk(c) && OnlyNotes(c, c') && Before(c, c', i)
            && out' == out + Wire(NotesSaid(c, c', i))
    decreases MAX_IDS - i
  {
    hide ConnOk, NoteOut, NoteItems, Wire, NotesSaid;
    ConnTables(c, fp);
    if i < MAX_IDS && |out| + 6 <= mtu {
      var k := c.ids[i];
      if k == -1 {
        NotesSay(c, i + 1, out, mtu, fp);
        var c' := NotesFrom(c, i + 1, out, mtu, fp).0;
        SaidNext(c, c', i);
        assert [] + NotesSaid(c, c', i + 1) == NotesSaid(c, c', i + 1);
        assert NotesFrom(c, i, out, mtu, fp) == NotesFrom(c, i + 1, out, mtu, fp);
      } else {
        var (ch1, out1) := NoteOut(c.slots[k].ch, out, mtu);
        NoteStep(c, i, out, mtu, fp);
        var c1 := SetChan(c, k, ch1);
        NotesSay(c1, i + 1, out1, mtu, fp);
        var (c', out') := NotesFrom(c1, i + 1, out1, mtu, fp);
        assert NotesFrom(c, i, out, mtu, fp) == (c', out');
        NotesJoin(c, c1, c', i);
        WireConcat(NoteItems(i, c.slots[k].ch, ch1), NotesSaid(c, c', i + 1));
      }
    } else {
      NothingSaid(c, i);
      WireNone();
    }
  }

  // What one channel gave up, and then those after it.
  lemma NotesJoin(c: Conn, c1: Conn, c': Conn, i: nat)
    requires TablesOk(c) && TablesOk(c1) && i < MAX_IDS && c.ids[i] != -1 && c1.slots[c.ids[i]].Used?
    requires var k := c.ids[i]; c1 == SetChan(c, k, c1.slots[k].ch) && NotesGiven(c.slots[k].ch, c1.slots[k].ch)
    requires OnlyNotes(c1, c') && Before(c1, c', i + 1)
    ensures OnlyNotes(c, c') && Before(c, c', i)
    ensures NotesSaid(c, c', i) == NoteItems(i, c.slots[c.ids[i]].ch, c1.slots[c.ids[i]].ch) + NotesSaid(c, c', i + 1)
    ensures NotesSaid(c1, c', i + 1) == NotesSaid(c, c', i + 1)
  {
    hide NoteItems, NotesSaid;
    var k := c.ids[i];
    assert c'.slots[k] == c1.slots[k] by { assert c1.ids[i] == k; }
    SaidSame(c, c1, c', i + 1);
    SaidNext(c, c', i);
  }

  lemma WireNone()
    ensures Wire([]) == []
  {
  }

  lemma SaidNext(c: Conn, c': Conn, i: nat)
    requires TablesOk(c) && |c'.slots| == |c.slots| && i < MAX_IDS && OnlyNotes(c, c')
    ensures NotesSaid(c, c', i)
         == (if c.ids[i] == -1 then [] else NoteItems(i, c.slots[c.ids[i]].ch, c'.slots[c.ids[i]].ch))
            + NotesSaid(c, c', i + 1)
  {
    hide NoteItems;
  }

  // ----- the data -----

  // The first fragment not yet sent of the first message that has one.
  function NextFragment(store: seq<bytes>, o: Out, fp: nat): Frame
    requires |o.cells| == OUTGOING_SLOTS && o.head < OUTGOING_SLOTS && o.tail < OUTGOING_SLOTS && NextOf(o) != -1
  {
    var c := o.cells[NextOf(o)];
    Frame(c.meta.seqno, c.meta.sent, c.meta.total, Piece(Pool([], store, false), c, fp))
  }

  // A ring with its places in range.
  predicate Ringed(o: Out) {
    |o.cells| == OUTGOING_SLOTS && o.head < OUTGOING_SLOTS && o.tail < OUTGOING_SLOTS
  }

  // What a channel has sent of its ring between these two states of it.
  function DataItems(store: seq<bytes>, id: byte, ch: Chan, ch': Chan, fp: nat): seq<Item> {
    if ch'.out != ch.out && Ringed(ch.out) && NextOf(ch.out) != -1 then [DataItem(id, NextFragment(store, ch.out, fp))]
    else []
  }

  function DataSaid(store: seq<bytes>, c: Conn, c': Conn, i: nat, fp: nat): seq<Item>
    requires |c.ids| == MAX_IDS && |c'.slots| == |c.slots|
    requires forall j :: 0 <= j < MAX_IDS && c.ids[j] != -1 ==> 0 <= c.ids[j] < |c.slots|
    decreases MAX_IDS - i
  {
    if i >= MAX_IDS then []
    else
      var k := c.ids[i];
      (if k == -1 || c.slots[k].Vacant? || c'.slots[k].Vacant? then []
       else DataItems(store, i, c.slots[k].ch, c'.slots[k].ch, fp))
      + DataSaid(store, c, c', i + 1, fp)
  }

  // Only rings change, and those only of open channels that send.
  ghost predicate OnlyRings(c: Conn, c': Conn) {
    && c' == c.(slots := c'.slots, pool := c'.pool) && |c'.slots| == |c.slots| && c'.pool.store == c.pool.store
    && forall k :: 0 <= k < |c.slots| ==>
         if c.slots[k].Vacant? then c'.slots[k] == c.slots[k]
         else c'.slots[k].Used? && RingOnly(c.slots[k].ch, c'.slots[k].ch)
  }

  predicate RingOnly(ch: Chan, ch': Chan) {
    ch' == ch.(out := ch'.out) && (ch'.out != ch.out ==> ch.info.sends && ch.info.status == Open)
  }

  lemma {:induction false} NothingSent(store: seq<bytes>, c: Conn, i: nat, fp: nat)
    requires TablesOk(c)
    ensures DataSaid(store, c, c, i, fp) == [] && OnlyRings(c, c)
    decreases MAX_IDS - i
  {
    if i < MAX_IDS {
      NothingSent(store, c, i + 1, fp);
    }
  }

  lemma {:induction false} SentSame(store: seq<bytes>, c: Conn, d: Conn, c': Conn, i: nat, fp: nat)
    requires TablesOk(c) && TablesOk(d) && d.ids == c.ids && |c'.slots| == |c.slots|
    requires forall j :: i <= j < MAX_IDS && c.ids[j] != -1 ==> d.slots[c.ids[j]] == c.slots[c.ids[j]]
    ensures DataSaid(store, d, c', i, fp) == DataSaid(store, c, c', i, fp)
    decreases MAX_IDS - i
  {
    hide DataItems;
    if i < MAX_IDS {
      SentSame(store, c, d, c', i + 1, fp);
    }
  }

  lemma SentNext(store: seq<bytes>, c: Conn, c': Conn, i: nat, fp: nat)
    requires TablesOk(c) && |c'.slots| == |c.slots| && i < MAX_IDS && OnlyRings(c, c')
    ensures DataSaid(store, c, c', i, fp)
         == (if c.ids[i] == -1 then [] else DataItems(store, i, c.slots[c.ids[i]].ch, c'.slots[c.ids[i]].ch, fp))
            + DataSaid(store, c, c', i + 1, fp)
  {
    hide DataItems;
  }

  // A channel asked for a fragment gives its next one, and nothing but its ring changes.
  lemma EmitSays(p: Pool, ch: Chan, fp: nat, now: u32, id: byte)
    requires fp >= 64 && OutOk(ch.out, fp) && MaySend(ch)
    ensures var (p', ch', f) := ChanEmit(p, ch, fp, NextOf(ch.out), now);
            && RingOnly(ch, ch') && p'.store == p.store
            && DataItems(p.store, id, ch, ch', fp) == [DataItem(id, f)]
  {
    hide Unsent, SlotOk, FragTotal, Frag;
    EmitLowers(p, ch, fp, NextOf(ch.out), now);
  }

  // One channel's part of the pass over the data.
  lemma DataStep(c: Conn, i: nat, fp: nat, now: u32)
    requires fp >= 64 && ConnOk(c, fp) && i < MAX_IDS && c.ids[i] != -1 && MaySend(c.slots[c.ids[i]].ch)
    ensures var k := c.ids[i];
            var ch := c.slots[k].ch;
            var (p, ch1, f) := ChanEmit(c.pool, ch, fp, NextOf(ch.out), now);
            && ConnOk(Stored(c, k, p, ch1), fp) && RingOnly(ch, ch1) && p.store == c.pool.store && ch1.info.id == i
            && DataItems(c.pool.store, i, ch, ch1, fp) == [DataItem(i, f)] && Encodes(DataItem(i, f))
  {
    hide ConnOk, ChanEmit, DataItems;
    ConnTables(c, fp);
    var k := c.ids[i];
    RingsOk(c, fp, k);
    EmitSays(c.pool, c.slots[k].ch, fp, now, i);
    FrameFits(c, fp, k, now);
    EmitKeeps(c, fp, k, now);
  }

  lemma {:induction false} DataSays(c: Conn, i: nat, out: bytes, mtu: nat, fp: nat, now: u32)
    requires fp >= 64 && ConnOk(c, fp)
    ensures var (c', out') := DataFrom(c, i, out, mtu, fp, now);
            && TablesOk(c) && OnlyRings(c, c') && Before(c, c', i)
            && var xs := DataSaid(c.pool.store, c, c', i, fp); AllEncode(xs) && out' == out + Wire(xs)
    decreases MAX_IDS - i
  {
    hide ConnOk, ChanEmit, DataItems, Wire, DataSaid, DataBytes, NextSendable;
    ConnTables(c, fp);
    if i < MAX_IDS && |out| + 9 <= mtu {
      var k := c.ids[i];
      if k != -1 { RingsOk(c, fp, k); }
      if k == -1 || !MaySend(c.slots[k].ch) {
        DataSays(c, i + 1, out, mtu, fp, now);
        var c' := DataFrom(c, i + 1, out, mtu, fp, now).0;
        SentNext(c.pool.store, c, c', i, fp);
        if k != -1 { NoneSent(c.pool.store, i, c.slots[k].ch, fp); }
        assert [] + DataSaid(c.pool.store, c, c', i + 1, fp) == DataSaid(c.pool.store, c, c', i + 1, fp);
      } else {
        var ch := c.slots[k].ch;
        var (p, ch1, f) := ChanEmit(c.pool, ch, fp, NextOf(ch.out), now);
        DataStep(c, i, fp, now);
        if |f.data| <= mtu - |out| - 8 {
          DataSent(c, i, out, mtu, fp, now);
        } else {
          NothingSent(c.pool.store, c, i, fp);
          WireNone();
        }
      }
    } else {
      NothingSent(c.pool.store, c, i, fp);
      WireNone();
    }
  }

  lemma {:induction false} DataSent(c: Conn, i: nat, out: bytes, mtu: nat, fp: nat, now: u32)
    requires fp >= 64 && ConnOk(c, fp) && i < MAX_IDS && c.ids[i] != -1 && MaySend(c.slots[c.ids[i]].ch)
    requires |out| + 9 <= mtu
    requires var ch := c.slots[c.ids[i]].ch; |ChanEmit(c.pool, ch, fp, NextOf(ch.out), now).2.data| <= mtu - |out| - 8
    ensures var (c', out') := DataFrom(c, i, out, mtu, fp, now);
            && TablesOk(c) && OnlyRings(c, c') && Before(c, c', i)
            && var xs := DataSaid(c.pool.store, c, c', i, fp); AllEncode(xs) && out' == out + Wire(xs)
    decreases MAX_IDS - i, 0
  {
    hide ConnOk, ChanEmit, DataItems, Wire, DataSaid, DataBytes, NextSendable;
    ConnTables(c, fp);
    var k := c.ids[i];
    RingsOk(c, fp, k);
    var ch := c.slots[k].ch;
    var (p, ch1, f) := ChanEmit(c.pool, ch, fp, NextOf(ch.out), now);
    DataStep(c, i, fp, now);
    var c1 := Stored(c, k, p, ch1);
    var out1 := out + DataBytes(ch1.info.id, f);
    DataSays(c1, i + 1, out1, mtu, fp, now);
    var (c', out') := DataFrom(c1, i + 1, out1, mtu, fp, now);
    DataJoin(c, c1, c', i, fp);
    WireOne(i, f);
    WireConcat([DataItem(i, f)], DataSaid(c.pool.store, c, c', i + 1, fp));
  }

  lemma DataJoin(c: Conn, c1: Conn, c': Conn, i: nat, fp: nat)
    requires TablesOk(c) && TablesOk(c1) && i < MAX_IDS && c.ids[i] != -1 && c1.slots[c.ids[i]].Used?
    requires var k := c.ids[i]; c1 == Stored(c, k, c1.pool, c1.slots[k].ch) && RingOnly(c.slots[k].ch, c1.slots[k].ch)
    requires c1.pool.store == c.pool.store && OnlyRings(c1, c') && Before(c1, c', i + 1)
    ensures OnlyRings(c, c') && Before(c, c', i)
    ensures var store := c.pool.store;
            && DataSaid(store, c, c', i, fp)
               == DataItems(store, i, c.slots[c.ids[i]].ch, c1.slots[c.ids[i]].ch, fp) + DataSaid(store, c, c', i + 1, fp)
            && DataSaid(store, c1, c', i + 1, fp) == DataSaid(store, c, c', i + 1, fp)
  {
    hide DataItems, DataSaid;
    var k := c.ids[i];
    assert c'.slots[k] == c1.slots[k] by { assert c1.ids[i] == k; }
    SentSame(c.pool.store, c, c1, c', i + 1, fp);
    SentNext(c.pool.store, c, c', i, fp);
  }

  lemma NoneSent(store: seq<bytes>, id: byte, ch: Chan, fp: nat)
    ensures DataItems(store, id, ch, ch, fp) == []
  {
  }

  lemma RingsOk(c: Conn, fp: nat, k: nat)
    requires fp >= 64 && ConnOk(c, fp) && k < MAX_CHAN && c.slots[k].Used?
    ensures OutOk(c.slots[k].ch.out, fp)
  {
  }

  lemma WireOne(id: byte, f: Frame)
    requires Encodes(DataItem(id, f))
    ensures Wire([DataItem(id, f)]) == DataBytes(id, f)
  {
    hide DataBytes;
    assert [DataItem(id, f)][1..] == [];
  }

  // ----- a packet -----

  // A packet as sent by c: n of the control bytes waiting, then for every channel, in the
  // order of the ids, what it gave up of its notes on the way to c2, and after those what it
  // sent of its ring on the way to c3. Nothing else of a channel changes.
  ghost predicate Says(c: Conn, n: nat, c2: Conn, c3: Conn, pkt: bytes, fp: nat)
    requires fp > 0 && ConnOk(c, fp)
  {
    && n <= |c.ctrl| && TablesOk(c2) && OnlyNotes(Packeted(c, n), c2) && OnlyRings(c2, c3)
    && AllEncode(Said(c, c2, c3, fp)) && pkt == Header(c) + c.ctrl[..n] + Wire(Said(c, c2, c3, fp))
  }

  // The connection once the header and the control bytes are out.
  function Packeted(c: Conn, n: nat): Conn
    requires n <= |c.ctrl|
  {
    Counted1(c).(ctrl := c.ctrl[n..])
  }

  function Said(c: Conn, c2: Conn, c3: Conn, fp: nat): seq<Item>
    requires TablesOk(c) && TablesOk(c2) && |c2.slots| == |c.slots| && |c3.slots| == |c.slots|
  {
    NotesSaid(c, c2, 0) + DataSaid(c2.pool.store, c2, c3, 0, fp)
  }

  // Main result for a packet: that is what it is.
  lemma PacketSays(c: Conn, room: nat, mtu: nat, fp: nat, now: u32) returns (n: nat, c2: Conn)
    requires fp >= 64 && ConnOk(c, fp) && mtu >= HDR_FULL && HasData(c, fp) && room >= |Header(c)|
    ensures Says(c, n, c2, SendNext(c, room, mtu, fp, now).0, SendNext(c, room, mtu, fp, now).1, fp)
  {
    hide ConnOk, NotesFrom, DataFrom, HasData, Wire, NotesSaid, DataSaid;
    var hdr := Header(c);
    var m := Min(mtu, room);
    n := Min(|c.ctrl|, m - |hdr|);
    var c1 := Packeted(c, n);
    SessionKeeps(c, c1, fp);
    ConnTables(c, fp);
    NotesSay(c1, 0, hdr + c.ctrl[..n], m, fp);
    NotesKeep(c1, 0, hdr + c.ctrl[..n], m, fp);
    var out, c3, pkt;
    c2, out := NotesFrom(c1, 0, hdr + c.ctrl[..n], m, fp).0, NotesFrom(c1, 0, hdr + c.ctrl[..n], m, fp).1;
    DataSays(c2, 0, out, m, fp, now);
    c3, pkt := DataFrom(c2, 0, out, m, fp, now).0, DataFrom(c2, 0, out, m, fp, now).1;
    assert SendNext(c, room, mtu, fp, now) == (c3, pkt);
    SaidSame(c, c1, c2, 0);
    WireConcat(NotesSaid(c, c2, 0), DataSaid(c2.pool.store, c2, c3, 0, fp));
  }

  // The header: a client still connecting names itself and numbers nothing; everybody else
  // names the peer and the packet, the next one being numbered one higher in 16 bits.
  lemma HeaderSays(c: Conn, n: nat, c2: Conn, c3: Conn, pkt: bytes, fp: nat)
    requires fp > 0 && ConnOk(c, fp) && Says(c, n, c2, c3, pkt, fp)
    ensures if c.peer.state == Connecting && !c.peer.server then
              |pkt| >= HDR_INIT && pkt[0] == 1 && Rd32(pkt, 1) == c.peer.localId && c3.peer == c.peer
            else
              && |pkt| >= HDR_FULL && pkt[0] == 2 && Rd32(pkt, 1) == c.peer.remoteId && Rd16(pkt, 5) == c.peer.packet
              && c3.peer == c.peer.(packet := Plus16(c.peer.packet, 1))
  {
    hide ConnOk, Said, Wire, Wr16, Wr32, Rd16, Rd32;
    var h := Header(c);
    if c.peer.state == Connecting && !c.peer.server {
      assert pkt[1..5] == h[1..5] == Wr32(c.peer.localId);
      ReadBack32(pkt, 1, c.peer.localId);
    } else {
      assert pkt[1..5] == h[1..5] == Wr32(c.peer.remoteId);
      assert pkt[5..7] == h[5..7] == Wr16(c.peer.packet);
      ReadBack32(pkt, 1, c.peer.remoteId);
      ReadBack16(pkt, 5, c.peer.packet);
    }
  }

  // ----- what the other end makes of it -----

  // One frame about a channel, at the end it is fed to.
  function Apply(c: Conn, x: Item, fp: nat): Conn
    requires fp >= 64 && ConnOk(c, fp)
  {
    match x
    case AckItem(id, acked) => OnAck(c, fp, id, acked)
    case WindowItem(id, window) => OnWindow(c, fp, id, window)
    case DataItem(id, f) => OnData(c, fp, id, f)
  }

  lemma ApplyKeeps(c: Conn, x: Item, fp: nat)
    requires fp >= 64 && ConnOk(c, fp)
    ensures var c' := Apply(c, x, fp); c'.pool.spilled || ConnOk(c', fp)
  {
    hide ConnOk, OnAck, OnData, ConnOverfills;
    ConnTables(c, fp);
    match x
    case AckItem(id, acked) => OnAckKeeps(c, fp, id, acked);
    case WindowItem(id, window) =>
      if c.ids[id] != -1 { InfoKeeps(c, fp, c.ids[id], ChanWindow(c.slots[c.ids[id]].ch, window)); }
    case DataItem(id, f) => OnDataKeeps(c, fp, id, f);
  }

  function ApplyAll(c: Conn, xs: seq<Item>, fp: nat): (c': Conn)
    requires fp >= 64 && ConnOk(c, fp)
    ensures c'.pool.spilled || ConnOk(c', fp)
    decreases |xs|
  {
    if xs == [] then c
    else
      ApplyKeeps(c, xs[0], fp);
      var c1 := Apply(c, xs[0], fp);
      if c1.pool.spilled then c1 else ApplyAll(c1, xs[1..], fp)
  }

  lemma StepApplies(c: Conn, x: Item, tail: bytes, fp: nat, limit: u32, newId: u32)
    requires fp >= 64 && ConnOk(c, fp) && Encodes(x)
    ensures FrameStep(c, ItemBytes(x) + tail, fp, limit, newId) == Took(|ItemBytes(x)|, Apply(c, x, fp))
  {
    hide ConnOk, OnAck, OnData, OnWindow, Rd16, Rd32, Wr16, Wr32;
    var d := ItemBytes(x) + tail;
    match x
    case AckItem(id, acked) =>
      assert d[2..4] == Wr16(acked);
      ReadBack16(d, 2, acked);
    case WindowItem(id, window) =>
      assert d[2..6] == Wr32(window);
      ReadBack32(d, 2, window);
    case DataItem(id, f) =>
      DataReadsBack(id, f, tail);
      assert |DataBytes(id, f)| == 8 + |f.data| && Rd16(d, 4) == |f.data|;
  }

  // Frames about channels are applied in order, whatever follows them.
  lemma {:induction false} FramesApply(c: Conn, xs: seq<Item>, tail: bytes, fp: nat, limit: u32, newId: u32)
    requires fp >= 64 && ConnOk(c, fp) && AllEncode(xs)
    ensures var c' := ApplyAll(c, xs, fp);
            if c'.pool.spilled then Frames(c, Wire(xs) + tail, fp, limit, newId) == (c', false)
            else Frames(c, Wire(xs) + tail, fp, limit, newId) == Frames(c', tail, fp, limit, newId)
    decreases |xs|
  {
    hide ConnOk, FrameStep, Apply, ItemBytes;
    if xs == [] {
      ConnClean(c, fp);
      assert Wire(xs) + tail == tail;
    } else {
      var x, d, rest := xs[0], Wire(xs) + tail, Wire(xs[1..]) + tail;
      assert d == ItemBytes(x) + rest;
      StepApplies(c, x, rest, fp, limit, newId);
      ApplyKeeps(c, x, fp);
      assert d[|ItemBytes(x)|..] == rest;
      if !Apply(c, x, fp).pool.spilled {
        FramesApply(Apply(c, x, fp), xs[1..], tail, fp, limit, newId);
      }
    }
  }

  // A frame read in full is read the same whatever follows it.
  lemma StepStable(c: Conn, a: bytes, b: bytes, fp: nat, limit: u32, newId: u32)
    requires fp >= 64 && ConnOk(c, fp) && a != [] && FrameStep(c, a, fp, limit, newId).Took?
    ensures FrameStep(c, a + b, fp, limit, newId) == FrameStep(c, a, fp, limit, newId)
  {
    hide ConnOk, OnAck, OnData, OnWindow, OnOpen, OnClose;
    var d := a + b;
    assert d[0] == a[0];
    if a[0] == F_DATA {
      assert Rd16(d, 4) == Rd16(a, 4) && Rd16(d, 2) == Rd16(a, 2);
      assert d[8..8 + Rd16(a, 4)] == a[8..8 + Rd16(a, 4)];
    } else if a[0] == F_PING {
      assert d[1..5] == a[1..5];
    }
  }

  lemma {:induction false} FramesConcat(c: Conn, a: bytes, b: bytes, fp: nat, limit: u32, newId: u32)
    requires fp >= 64 && ConnOk(c, fp) && Frames(c, a, fp, limit, newId).1
    ensures ConnOk(Frames(c, a, fp, limit, newId).0, fp)
    ensures Frames(c, a + b, fp, limit, newId) == Frames(Frames(c, a, fp, limit, newId).0, b, fp, limit, newId)
    decreases |a|
  {
    hide ConnOk, FrameStep;
    if a == [] {
      assert a + b == b;
    } else {
      FrameKeeps(c, a, fp, limit, newId);
      StepStable(c, a, b, fp, limit, newId);
      var r := FrameStep(c, a, fp, limit, newId);
      assert (a + b)[r.n..] == a[r.n..] + b;
      FramesConcat(r.c, a[r.n..], b, fp, limit, newId);
    }
  }

  lemma HeaderReads(c: Conn, p: Conn, body: bytes, fp: nat, limit: u32, newId: u32)
    requires fp >= 64 && ConnOk(p, fp)
    requires (c.peer.state == Connecting && !c.peer.server) || c.peer.remoteId == p.peer.localId
    ensures Feed(p, Header(c) + body, fp, limit, newId) == Frames(p, body, fp, limit, newId)
  {
    hide ConnOk, Frames, Wr16, Wr32, Rd32;
    var pkt := Header(c) + body;
    if c.peer.state == Connecting && !c.peer.server {
      assert pkt[HDR_INIT..] == body;
    } else {
      assert pkt[1..5] == Wr32(c.peer.remoteId);
      ReadBack32(pkt, 1, c.peer.remoteId);
      assert pkt[HDR_FULL..] == body;
    }
  }

  // A packet too short for its header, or addressed to somebody else, is refused unread.
  lemma MisdirectedIsRefused(p: Conn, pkt: bytes, fp: nat, limit: u32, newId: u32)
    requires fp >= 64 && ConnOk(p, fp)
    requires |pkt| < HDR_INIT || (pkt[0] % 2 == 0 && (|pkt| < HDR_FULL || Rd32(pkt, 1) != p.peer.localId))
    ensures Feed(p, pkt, fp, limit, newId) == (p, false)
  {
    hide ConnOk, Frames, Rd32;
  }

  // Main result: fed to the connection it is addressed to, a packet has there the effect of
  // its control frames, if they are read, and then of each thing it says about a channel, in
  // order: the number owed and the room left are applied to the channel of the same id, and
  // the fragment is received on it.
  lemma PacketIsTaken(c: Conn, n: nat, c2: Conn, c3: Conn, pkt: bytes, fp: nat, p: Conn, share: nat, limit: u32, newId: u32)
    requires fp >= 64 && ConnOk(c, fp) && Says(c, n, c2, c3, pkt, fp)
    requires share >= 64 && ConnOk(p, share) && Frames(p, c.ctrl[..n], share, limit, newId).1
    requires (c.peer.state == Connecting && !c.peer.server) || c.peer.remoteId == p.peer.localId
    ensures ConnOk(Frames(p, c.ctrl[..n], share, limit, newId).0, share)
    ensures var p' := ApplyAll(Frames(p, c.ctrl[..n], share, limit, newId).0, Said(c, c2, c3, fp), share);
            Feed(p, pkt, share, limit, newId) == (p', !p'.pool.spilled)
  {
    hide ConnOk, Frames, Feed, Wire, Header, ApplyAll, NotesSaid, DataSaid;
    ConnTables(c, fp);
    var xs := Said(c, c2, c3, fp);
    var body := c.ctrl[..n] + Wire(xs);
    assert pkt == Header(c) + body;
    HeaderReads(c, p, body, share, limit, newId);
    FramesConcat(p, c.ctrl[..n], Wire(xs), share, limit, newId);
    var p1 := Frames(p, c.ctrl[..n], share, limit, newId).0;
    FramesApply(p1, xs, [], share, limit, newId);
    assert Wire(xs) + [] == Wire(xs);
    FramesEnd(ApplyAll(p1, xs, share), share, limit, newId);
  }

  lemma FramesEnd(c: Conn, fp: nat, limit: u32, newId: u32)
    ensures fp >= 64 && !c.pool.spilled && ConnOk(c, fp) ==> Frames(c, [], fp, limit, newId) == (c, true)
  {
  }
}
