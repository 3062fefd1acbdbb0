// The two ends of a netchan connection meeting: the handshake, a channel opened at one end and
// known at the other, and its end.
module NetchanLink {
  import opened Bytes
  import opened NetchanPool
  import opened NetchanFrag
  import opened NetchanRecv
  import opened NetchanData
  import opened NetchanDeliver
  import opened NetchanSend
  import opened NetchanRead
  import opened NetchanConn
  import opened NetchanFeed
  import opened NetchanOutput
  import opened NetchanApi
  import opened NetchanAck
  import NetchanWire

  // What a call has queued to be sent.
  function Queued(before: Conn, after: Conn): bytes {
    if |before.ctrl| <= |after.ctrl| then after.ctrl[|before.ctrl|..] else []
  }

  // Frames reach the peer, and are read.
  ghost predicate Reads(p: Conn, d: bytes, fp: nat, limit: u32, newId: u32, p': Conn) {
    fp >= 64 && ConnOk(p, fp) && Frames(p, d, fp, limit, newId) == (p', true) && ConnOk(p', fp)
  }

  lemma OneFrame(p: Conn, d: bytes, fp: nat, limit: u32, newId: u32, p': Conn)
    requires fp >= 64 && ConnOk(p, fp) && d != [] && FrameStep(p, d, fp, limit, newId) == Took(|d|, p')
    requires !p'.pool.spilled
    ensures Reads(p, d, fp, limit, newId, p')
  {
    hide ConnOk, FrameStep;
    FrameKeeps(p, d, fp, limit, newId);
    assert d[|d|..] == [];
    assert Frames(p', d[|d|..], fp, limit, newId) == (p', true);
  }

  // ----- the handshake -----

  // The two ends know each other by the right names.
  predicate Addressed(c: Conn, p: Conn) {
    c.peer.remoteId == p.peer.localId && p.peer.remoteId == c.peer.localId
  }

  // A client that connects, a new server that hears of it, and accepts: both are up, and each
  // has the other's name.
  lemma HandshakeConnects(c: Conn, p: Conn, fp: nat, share: nat, limit: u32, plimit: u32, id: u32, pid: u32, idle: u32)
    requires fp >= 64 && ConnOk(c, fp) && share >= 64 && ConnOk(p, share)
    requires !c.peer.server && c.peer.state == New && |c.ctrl| + 6 <= CTRL_SIZE
    requires p.peer.server && p.peer.state == New && |p.ctrl| + 10 <= CTRL_SIZE
    ensures var c1 := Connect(c, id);
            && c1.peer.state == Connecting && Header(c1) == [1] + Wr32(id) && ConnOk(c1, fp)
            && var p1 := p.(peer := p.peer.(remoteId := id, localId := pid, state := Connecting));
            && Reads(p, Queued(c, c1), share, plimit, pid, p1)
            && var p2 := NetchanApi.Accept(p1, idle);
            && Reads(c1, Queued(p1, p2), fp, limit, 0, c1.(peer := c1.peer.(remoteId := pid, state := Connected)))
            && p2.peer.state == Connected && Addressed(c1.(peer := c1.peer.(remoteId := pid, state := Connected)), p2)
  {
    hide ConnOk, Wr32, Rd32;
    ConnClean(c, fp);
    ConnClean(p, share);
    var c1 := Connect(c, id);
    SessionKeeps(c, c1, fp);
    var d := [F_INIT] + Wr32(id) + [VERSION];
    assert Queued(c, c1) == d && d[1..5] == Wr32(id);
    ReadBack32(d, 1, id);
    var p1 := p.(peer := p.peer.(remoteId := id, localId := pid, state := Connecting));
    OneFrame(p, d, share, plimit, pid, p1);
    var p2 := NetchanApi.Accept(p1, idle);
    var e := [F_ACCEPT] + Wr32(pid) + [VERSION] + Wr32(idle);
    assert Queued(p1, p2) == e && e[1..5] == Wr32(pid);
    ReadBack32(e, 1, pid);
    OneFrame(c1, e, fp, limit, 0, c1.(peer := c1.peer.(remoteId := pid, state := Connected)));
  }

  // A frame of the handshake that does not belong is refused: INIT by a client or of another
  // version, ACCEPT by a server.
  lemma HandshakeRefuses(c: Conn, d: bytes, fp: nat, limit: u32, newId: u32)
    requires fp >= 64 && ConnOk(c, fp) && d != []
    ensures d[0] == F_INIT ==> (FrameStep(c, d, fp, limit, newId).Bad? <==> |d| < 6 || !c.peer.server || d[5] != VERSION)
    ensures d[0] == F_ACCEPT ==> (FrameStep(c, d, fp, limit, newId).Bad? <==> |d| < 10 || c.peer.server)
    ensures d[0] == F_INIT && c.peer.state != New && FrameStep(c, d, fp, limit, newId).Took? ==>
              FrameStep(c, d, fp, limit, newId).c == c.(peer := c.peer.(remoteId := Rd32(d, 1)))
  {
    hide ConnOk, Rd32;
  }

  function HungUp(s: State): State {
    if s in {Connecting, Connected, Leaving} then Ended else s
  }

  // Hanging up ends the session at the other end.
  lemma DisconnectEnds(c: Conn, p: Conn, share: nat, plimit: u32, newId: u32)
    requires share >= 64 && ConnOk(p, share) && c.peer.state == Connected && |c.ctrl| + 3 <= CTRL_SIZE
    ensures var c1 := Disconnect(c);
            && c1.peer.state == Leaving && c1.slots == c.slots
            && Reads(p, Queued(c, c1), share, plimit, newId, p.(peer := p.peer.(state := HungUp(p.peer.state))))
  {
    hide ConnOk, Wr16;
    ConnClean(p, share);
    var d := [F_DISCONNECT] + Wr16(0);
    assert Queued(c, Disconnect(c)) == d;
    OneFrame(p, d, share, plimit, newId, p.(peer := p.peer.(state := HungUp(p.peer.state))));
  }

  // A ping is answered with the same four bytes.
  lemma PingIsAnswered(p: Conn, word: bytes, share: nat, plimit: u32, newId: u32)
    requires share >= 64 && ConnOk(p, share) && |word| == 4 && |p.ctrl| + 5 <= CTRL_SIZE
    ensures Reads(p, [F_PING] + word, share, plimit, newId, p.(ctrl := p.ctrl + ([F_PONG] + word)))
  {
    hide ConnOk;
    ConnClean(p, share);
    var d := [F_PING] + word;
    assert d[1..5] == word;
    OneFrame(p, d, share, plimit, newId, p.(ctrl := p.ctrl + ([F_PONG] + word)));
  }

  // ----- opening a channel -----

  // The channel an id stands for.
  predicate Has(c: Conn, id: byte) {
    |c.ids| == MAX_IDS && 0 <= c.ids[id] < |c.slots| && c.slots[c.ids[id]].Used?
  }

  function ChanOf(c: Conn, id: byte): Chan
    requires Has(c, id)
  {
    c.slots[c.ids[id]].ch
  }

  // Both ends have the channel, of one kind, open, one sending and the other receiving, and
  // the sender may have as much in flight as the receiver buffers.
  predicate Paired(c: Conn, p: Conn, id: byte) {
    && Has(c, id) && Has(p, id)
    && var a, b := ChanOf(c, id), ChanOf(p, id);
       && a.info.id == id && b.info.id == id && a.info.kind == b.info.kind && a.info.sends != b.info.sends
       && a.info.status == Open && b.info.status == Open
       && (if a.info.sends then a.info.window == b.notes.limit else b.info.window == a.notes.limit)
  }

  // What the kind code of a channel decides: code 1 is not acknowledged, and only code 0 is held
  // to the window, counted in flight and sent again.
  lemma KindMatters(code: byte, id: byte, status: Status, window: u32, limit: u32, rt: u32, now: u32)
    ensures Acks(Info(id, KindOf(code), false, status, window)) <==> code != 1
    ensures KindOf(code) == Reliable <==> code == 0
    ensures code != 0 ==> var ch := NewChan(Info(id, KindOf(code), true, status, window), limit); ChanService(ch, rt, now) == ch
  {
    hide NewOut, NewRx, Retransmit;
  }

  // A new channel has nothing to send, nothing to read and owes nothing.
  lemma NewChannelIsSilent(info: Info, limit: u32)
    ensures var ch := NewChan(info, limit);
            && ch.info == info && ch.notes.limit == limit && !Owes(ch)
            && Idle(ch.out) && Empty(ch.rx) && NetchanWire.Ringed(ch.out) && NextOf(ch.out) == -1
  {
    hide NewOut, NewRx, Idle, Empty;
    NewOutIdle();
    NewRxEmpty();
    IdleRing(NewOut());
    NothingNext(NewOut());
  }

  lemma IdleRing(o: Out)
    requires Idle(o)
    ensures NetchanWire.Ringed(o)
  {
  }

  lemma NothingNext(o: Out)
    requires Idle(o)
    ensures NextOf(o) == -1
  {
  }

  // A vacant slot is filled under the id.
  lemma AddedIs(c: Conn, info: Info, limit: u32, fp: nat)
    requires fp > 0 && ConnOk(c, fp) && c.ids[info.id] == -1 && FindVacant(c.slots, 0) != -1
    ensures var c' := AddChan(c, info, limit);
            && Has(c', info.id) && ChanOf(c', info.id) == NewChan(info, limit) && c'.ctrl == c.ctrl && c'.pool == c.pool
            && c' == c.(slots := c'.slots, ids := c'.ids) && ConnOk(c', fp)
  {
    hide ConnOk, NewChan;
    ConnTables(c, fp);
    AddChanKeeps(c, info, limit, fp);
  }

  lemma OpenReads(p: Conn, id: byte, code: byte, dir: byte, ct: bytes, tail: bytes, share: nat, plimit: u32, newId: u32)
    requires share >= 64 && ConnOk(p, share) && |ct| < 64
    ensures FrameStep(p, OpenBytes(id, code, dir, ct) + tail, share, plimit, newId)
         == Took(|OpenBytes(id, code, dir, ct)|, OnOpen(p, share, id, code, dir, plimit))
  {
    hide ConnOk, OnOpen;
  }

  lemma WindowReads(c: Conn, id: byte, window: u32, fp: nat, limit: u32, newId: u32)
    requires fp >= 64 && ConnOk(c, fp)
    ensures FrameStep(c, WindowBytes(id, window), fp, limit, newId) == Took(6, OnWindow(c, fp, id, window))
  {
    hide ConnOk, OnWindow, Wr32, Rd32;
    var d := WindowBytes(id, window);
    assert d[2..6] == Wr32(window);
    ReadBack32(d, 2, window);
  }

  // A window update opens the channel of its id that sends, and sets what it may have in flight.
  lemma WindowOpens(c: Conn, id: byte, window: u32, fp: nat)
    requires fp >= 64 && ConnOk(c, fp) && Has(c, id) && ChanOf(c, id).info.sends
    ensures var c' := OnWindow(c, fp, id, window); var a := ChanOf(c, id);
            && Has(c', id) && c'.ids == c.ids && c'.pool == c.pool && c'.ctrl == c.ctrl
            && ChanOf(c', id) == a.(info := a.info.(window := window,
                                                    status := if a.info.status == Opening then Open else a.info.status))
  {
    hide ConnOk;
    ConnTables(c, fp);
  }

  predicate CanOpen(c: Conn, id: byte) {
    |c.ids| == MAX_IDS && c.ids[id] == -1 && FindVacant(c.slots, 0) != -1
  }

  // Main result: a channel opened to send is, once the OPEN has reached the peer and its
  // answer has come back, open at both ends in opposite directions.
  lemma OpenToSend(c: Conn, p: Conn, fp: nat, share: nat, code: byte, ct: bytes, limit: u32, plimit: u32, newId: u32)
    requires fp >= 64 && ConnOk(c, fp) && share >= 64 && ConnOk(p, share) && |ct| < 64
    requires c.peer.state == Connected && CanOpen(c, c.peer.nextId) && CanOpen(p, c.peer.nextId)
    requires |c.ctrl| + 5 + |ct| <= CTRL_SIZE && |p.ctrl| + 6 <= CTRL_SIZE
    ensures var id, c1 := c.peer.nextId, OpenChan(c, code, 0, ct, limit);
            var p1 := OnOpen(p, share, id, code, 0, plimit);
            && ConnOk(c1, fp) && Has(c1, id) && ChanOf(c1, id).info.status == Opening
            && Reads(p, Queued(c, c1), share, plimit, newId, p1)
            && Reads(c1, Queued(p, p1), fp, limit, newId, OnWindow(c1, fp, id, plimit))
            && Paired(OnWindow(c1, fp, id, plimit), p1, id)
  {
    hide ConnOk, AddChan, OnWindow, FindVacant, NewRx, NewOut;
    var id := c.peer.nextId;
    var c0 := c.(peer := c.peer.(nextId := TwoOn(id)));
    SessionKeeps(c, c0, fp);
    AddedIs(c0, Info(id, KindOf(code), true, Opening, 0), limit, fp);
    AddedIs(p, Info(id, KindOf(code), false, Open, 0), plimit, share);
    OpenKeeps(c, fp, code, 0, ct, limit);
    OnOpenKeeps(p, share, id, code, 0, plimit);
    var c1, p1 := OpenChan(c, code, 0, ct, limit), OnOpen(p, share, id, code, 0, plimit);
    assert Queued(c, c1) == OpenBytes(id, code, 0, ct) && Queued(p, p1) == WindowBytes(id, plimit);
    OpenReads(p, id, code, 0, ct, [], share, plimit, newId);
    assert OpenBytes(id, code, 0, ct) + [] == OpenBytes(id, code, 0, ct);
    ConnClean(p1, share);
    OneFrame(p, OpenBytes(id, code, 0, ct), share, plimit, newId, p1);
    WindowReads(c1, id, plimit, fp, limit, newId);
    WindowOpens(c1, id, plimit, fp);
    ConnClean(c1, fp);
    OneFrame(c1, WindowBytes(id, plimit), fp, limit, newId, OnWindow(c1, fp, id, plimit));
  }

  // And one opened to receive is so once the OPEN, and the window that follows it, are there.
  lemma OpenToReceive(c: Conn, p: Conn, fp: nat, share: nat, code: byte, dir: byte, ct: bytes, limit: u32, plimit: u32,
                      newId: u32)
    requires fp >= 64 && ConnOk(c, fp) && share >= 64 && ConnOk(p, share) && |ct| < 64 && dir != 0
    requires c.peer.state == Connected && CanOpen(c, c.peer.nextId) && CanOpen(p, c.peer.nextId)
    requires |c.ctrl| + 11 + |ct| <= CTRL_SIZE
    ensures var id, c1 := c.peer.nextId, OpenChan(c, code, dir, ct, limit);
            var p1 := OnOpen(p, share, id, code, dir, plimit);
            && ConnOk(c1, fp) && ConnOk(p1, share)
            && Reads(p, Queued(c, c1), share, plimit, newId, OnWindow(p1, share, id, limit))
            && Paired(c1, OnWindow(p1, share, id, limit), id)
  {
    hide ConnOk, AddChan, OnWindow, FindVacant, NewRx, NewOut;
    var id := c.peer.nextId;
    var c0 := c.(peer := c.peer.(nextId := TwoOn(id)));
    SessionKeeps(c, c0, fp);
    AddedIs(c0, Info(id, KindOf(code), false, Open, 0), limit, fp);
    AddedIs(p, Info(id, KindOf(code), true, Open, 0), plimit, share);
    OpenKeeps(c, fp, code, dir, ct, limit);
    OnOpenKeeps(p, share, id, code, dir, plimit);
    var c1, p1 := OpenChan(c, code, dir, ct, limit), OnOpen(p, share, id, code, dir, plimit);
    var o, w := OpenBytes(id, code, dir, ct), WindowBytes(id, limit);
    assert Queued(c, c1) == o + w;
    OpenReads(p, id, code, dir, ct, w, share, plimit, newId);
    ConnClean(p1, share);
    WindowReads(p1, id, limit, share, plimit, newId);
    WindowOpens(p1, id, limit, share);
    OneFrame(p1, w, share, plimit, newId, OnWindow(p1, share, id, limit));
    assert (o + w)[|o|..] == w;
    TwoFrames(p, o, w, share, plimit, newId, p1, OnWindow(p1, share, id, limit));
  }

  lemma TwoFrames(p: Conn, a: bytes, b: bytes, fp: nat, limit: u32, newId: u32, p1: Conn, p2: Conn)
    requires fp >= 64 && ConnOk(p, fp) && a != [] && FrameStep(p, a + b, fp, limit, newId) == Took(|a|, p1)
    requires Reads(p1, b, fp, limit, newId, p2)
    ensures Reads(p, a + b, fp, limit, newId, p2)
  {
    hide FrameStep;
    FrameKeeps(p, a + b, fp, limit, newId);
    ConnClean(p1, fp);
    assert (a + b)[|a|..] == b;
  }

  // An id in use at the peer, or no slot left there, gets the channel refused: the CLOSE that
  // comes back marks it dead.
  lemma OpenIsRefused(c: Conn, p: Conn, fp: nat, share: nat, id: byte, code: byte, dir: byte, limit: u32, plimit: u32,
                      newId: u32)
    requires fp >= 64 && ConnOk(c, fp) && share >= 64 && ConnOk(p, share) && |p.ctrl| + 4 <= CTRL_SIZE
    requires Has(c, id) && (p.ids[id] != -1 || FindVacant(p.slots, 0) == -1)
    ensures var p1, c1 := OnOpen(p, share, id, code, dir, plimit), OnClose(c, fp, id);
            && p1 == p.(ctrl := p1.ctrl) && ConnOk(p1, share)
            && Reads(c, Queued(p, p1), fp, limit, newId, c1)
            && Has(c1, id) && ChanOf(c1, id) == ChanOf(c, id).(info := ChanOf(c, id).info.(status := Dead))
  {
    hide ConnOk, FindVacant, Wr16;
    ConnTables(c, fp);
    ConnClean(c, fp);
    SessionKeeps(p, OnOpen(p, share, id, code, dir, plimit), share);
    assert Queued(p, OnOpen(p, share, id, code, dir, plimit)) == CloseBytes(id, 1);
    OneFrame(c, CloseBytes(id, 1), fp, limit, newId, OnClose(c, fp, id));
  }

  // Closing a channel marks it closing here and dead at the peer, once.
  lemma CloseReachesPeer(c: Conn, p: Conn, fp: nat, share: nat, id: byte, plimit: u32, newId: u32)
    requires fp >= 64 && ConnOk(c, fp) && share >= 64 && ConnOk(p, share) && Has(c, id) && Has(p, id)
    requires ChanOf(c, id).info.status != Closing && ChanOf(c, id).info.status != Dead && |c.ctrl| + 4 <= CTRL_SIZE
    ensures var c1, p1 := CloseChan(c, fp, id), OnClose(p, share, id);
            && Has(c1, id) && ChanOf(c1, id) == ChanOf(c, id).(info := ChanOf(c, id).info.(status := Closing))
            && ConnOk(c1, fp) && CloseChan(c1, fp, id) == c1
            && Reads(p, Queued(c, c1), share, plimit, newId, p1)
            && Has(p1, id) && ChanOf(p1, id) == ChanOf(p, id).(info := ChanOf(p, id).info.(status := Dead))
  {
    hide ConnOk, Wr16;
    ConnTables(c, fp);
    ConnTables(p, share);
    ConnClean(p, share);
    ShutKeeps(c, fp, id);
    assert Queued(c, CloseChan(c, fp, id)) == CloseBytes(id, 0);
    OneFrame(p, CloseBytes(id, 0), share, plimit, newId, OnClose(p, share, id));
  }

  // The ids of one end never meet those of the other: each goes on by two from 0 or 1.
  lemma IdsKeepParity(c: Conn, fp: nat, code: byte, dir: byte, ct: bytes, limit: u32)
    requires |ct| < 64 && fp > 0 && ConnOk(c, fp)
    ensures OpenChan(c, code, dir, ct, limit).peer.nextId % 2 == c.peer.nextId % 2
    ensures c.peer.state == Connected && c.ids[c.peer.nextId] == -1 ==>
              OpenChan(c, code, dir, ct, limit).peer.nextId == (c.peer.nextId + 2) % 0x100
  {
    hide ConnOk, AddChan, FindVacant;
    ConnTables(c, fp);
    AddKeepsPeer(c.(peer := c.peer.(nextId := TwoOn(c.peer.nextId))),
                 Info(c.peer.nextId, KindOf(code), dir == 0, if dir == 0 then Opening else Open, 0), limit);
  }

  lemma AddKeepsPeer(c: Conn, info: Info, limit: u32)
    requires info.id < |c.ids|
    ensures AddChan(c, info, limit).peer == c.peer
  {
    hide NewChan;
  }

  // A call made in the wrong state or by the wrong side does nothing.
  lemma CallsOutOfTurn(c: Conn, newId: u32, idle: u32, code: byte, dir: byte, ct: bytes, limit: u32)
    requires |ct| < 64 && |c.ids| == MAX_IDS
    ensures c.peer.server || c.peer.state != New ==> Connect(c, newId) == c
    ensures !c.peer.server || c.peer.state != Connecting ==> NetchanApi.Accept(c, idle) == c
    ensures c.peer.state != Connected ==> Disconnect(c) == c && OpenChan(c, code, dir, ct, limit) == c
    ensures c.ids[c.peer.nextId] != -1 ==> OpenChan(c, code, dir, ct, limit) == c
  {
  }

  // With every slot taken, opening a channel spends the id and does nothing else.
  lemma OpenWithoutSlot(c: Conn, code: byte, dir: byte, ct: bytes, limit: u32)
    requires |ct| < 64 && |c.ids| == MAX_IDS && c.peer.state == Connected && c.ids[c.peer.nextId] == -1
    requires forall k :: 0 <= k < |c.slots| ==> c.slots[k].Used?
    ensures OpenChan(c, code, dir, ct, limit) == c.(peer := c.peer.(nextId := (c.peer.nextId + 2) % 0x100))
  {
    assert FindVacant(c.slots, 0) == -1;
  }

  // ----- reading and writing -----

  // What one channel does, and nothing of any other, nor of the session.
  ghost predicate OnlyChannel(c: Conn, c': Conn, id: byte) {
    && Has(c, id) && Has(c', id) && c' == c.(pool := c'.pool, slots := c'.slots)
    && c'.slots == c.slots[c.ids[id] := c'.slots[c.ids[id]]]
  }

  // A write goes to the channel of the id if it sends: its outcome is that of the ring, and only
  // the ring changes.
  lemma WriteReaches(c: Conn, fp: nat, id: byte, data: bytes)
    requires fp >= 64 && ConnOk(c, fp)
    ensures var (c', r) := WriteChan(c, fp, id, data);
            if Has(c, id) && ChanOf(c, id).info.sends then
              var ch := ChanOf(c, id);
              && |ch.out.cells| > ch.out.tail && OnlyChannel(c, c', id)
              && var gate := Gate(ch.info.kind == Reliable, ch.info.status, ch.info.window);
                 var (p, o, out) := Write1(c.pool, ch.out, gate, fp, data);
                 r == Done(out) && c'.pool == p && ChanOf(c', id) == ch.(out := o)
            else c' == c && r == Refused
  {
    hide Write1, ChansOk, Whole, AllHeld;
    if c.ids[id] != -1 {
      RingReady(c, fp, id);
      assert c.slots[c.ids[id] := c.slots[c.ids[id]]] == c.slots;
    }
  }

  lemma RingReady(c: Conn, fp: nat, id: byte)
    requires fp >= 64 && ConnOk(c, fp) && c.ids[id] != -1
    ensures Has(c, id) && c.slots[c.ids[id]].ch.out.tail < |c.slots[c.ids[id]].ch.out.cells|
    ensures PoolOk(c.pool) && QueueOk(c.slots[c.ids[id]].ch.rx.queue)
  {
  }

  // A read takes from the channel of the id, if it receives, the oldest message of its queue, or
  // as much of it as there is room for.
  lemma ReadReaches(c: Conn, fp: nat, id: byte, room: nat)
    requires fp >= 64 && ConnOk(c, fp)
    ensures var (c', data) := ReadChan(c, fp, id, room);
            && PoolOk(c.pool)
            && if Has(c, id) && !ChanOf(c, id).info.sends && QueueOk(ChanOf(c, id).rx.queue)
                  && NetchanRecv.Queued(c.pool, ChanOf(c, id).rx.queue) != []
               then
                 var q := NetchanRecv.Queued(c.pool, ChanOf(c, id).rx.queue);
                 && data == (if |q[0]| <= room then q[0] else q[0][..room])
                 && OnlyChannel(c, c', id) && QueueOk(ChanOf(c', id).rx.queue)
                 && NetchanRecv.Queued(c'.pool, ChanOf(c', id).rx.queue) == q[1..]
               else c' == c && data == []
  {
    hide ChansOk, Whole, AllHeld, ChanHeld, Dequeue, Bufs, Single, Holds;
    if c.ids[id] != -1 {
      RingReady(c, fp, id);
      ChanHolds(c, fp, c.ids[id]);
      SideHolds(c.pool, ChanOf(c, id));
      OldestRead(c.pool, ChanOf(c, id), room);
      assert c.slots[c.ids[id] := c.slots[c.ids[id]]] == c.slots;
    }
  }

  lemma OldestRead(p: Pool, ch: Chan, room: nat)
    requires QueueOk(ch.rx.queue) && Holds(p, Held(ch.rx))
    ensures PoolOk(p)
    ensures var (p', ch', data) := ChanRead(p, ch, room); var q := NetchanRecv.Queued(p, ch.rx.queue);
            if ch.info.sends || q == [] then (p', ch', data) == (p, ch, [])
            else
              && data == (if |q[0]| <= room then q[0] else q[0][..room])
              && QueueOk(ch'.rx.queue) && NetchanRecv.Queued(p', ch'.rx.queue) == q[1..]
  {
    hide Dequeue, Bufs, Single;
    if !ch.info.sends && ch.rx.queue.head != ch.rx.queue.tail {
      DequeueKept(p, ch.rx.queue, room, PendHeld(ch.rx.pend));
    }
  }

  // An ACK frame releases in the ring of the channel of its id, if that sends, exactly the
  // messages at or before the number, and touches nothing else.
  lemma AckReaches(c: Conn, fp: nat, id: byte, acked: u16)
    requires fp >= 64 && ConnOk(c, fp)
    ensures var c' := OnAck(c, fp, id, acked);
            if Has(c, id) && ChanOf(c, id).info.sends then
              && OnlyChannel(c, c', id)
              && var o, o' := ChanOf(c, id).out, ChanOf(c', id).out;
                 && ChanOf(c', id) == ChanOf(c, id).(out := o')
                 && |o'.cells| == |o.cells| && o'.tail == o.tail && o'.seqno == o.seqno
                 && forall i :: 0 <= i < |o.cells| ==>
                      o'.cells[i] == if o.cells[i].meta.active && Covered(o.cells[i].meta.seqno, acked)
                                     then Cell(NOBUF, o.cells[i].len, o.cells[i].meta.(active := false)) else o.cells[i]
            else c' == c
  {
    hide ChansOk, Whole, AllHeld, ChanHeld, Ack, Bufs, Single, Holds, Covered;
    if c.ids[id] != -1 {
      RingReady(c, fp, id);
      ChanHolds(c, fp, c.ids[id]);
      SideHolds(c.pool, ChanOf(c, id));
      RingsReady(c, fp, c.ids[id]);
      if ChanOf(c, id).info.sends { AckKept(c.pool, ChanOf(c, id).out, acked, fp, multiset{}); }
      assert c.slots[c.ids[id] := c.slots[c.ids[id]]] == c.slots;
    }
  }

  lemma RingsReady(c: Conn, fp: nat, k: nat)
    requires fp >= 64 && ConnOk(c, fp) && k < MAX_CHAN && c.slots[k].Used?
    ensures OutOk(c.slots[k].ch.out, fp) && RxOk(c.slots[k].ch.rx)
  {
  }

  // A DATA frame with the whole message wanted, for a channel that acknowledges and nothing
  // waiting behind it: with room the message is queued there, and it is owed an acknowledgement.
  lemma DataReaches(c: Conn, fp: nat, id: byte, data: bytes)
    requires fp >= 64 && ConnOk(c, fp) && Has(c, id) && Acks(ChanOf(c, id).info)
    requires Fine(c.pool, ChanOf(c, id).rx) && Following(ChanOf(c, id).rx) == 0
    requires Takes(c.pool, ChanOf(c, id).rx.queue, data)
    ensures var ch, c' := ChanOf(c, id), OnData(c, fp, id, Frame(ChanOf(c, id).rx.seqno, 0, 1, data));
            && OnlyChannel(c, c', id)
            && var ch' := ChanOf(c', id);
               && QueueOk(ch'.rx.queue)
               && NetchanRecv.Queued(c'.pool, ch'.rx.queue) == NetchanRecv.Queued(c.pool, ch.rx.queue) + [data]
               && ch'.rx.seqno == Plus16(ch.rx.seqno, 1) && ch'.rx.pend == ch.rx.pend && ch'.out == ch.out
               && ch'.info == ch.info && ch'.notes.ack && ch'.notes.acked == Owed(ch'.rx.seqno)
  {
    hide ChansOk, Whole, AllHeld, ChanHeld, Bufs, Single, Holds, NetchanRecv.Accept, Following, Takes, Fine;
    NothingFollows(c.pool, ChanOf(c, id).rx, data);
  }

  // The service routine does for every channel what it does for one, once.
  lemma {:induction false} ServiceReachesAll(c: Conn, i: nat, fp: nat, rt: u32, now: u32)
    requires fp >= 64 && ConnOk(c, fp)
    ensures var c' := ServiceFrom(c, i, fp, rt, now);
            && c' == c.(slots := c'.slots) && |c'.slots| == |c.slots|
            && forall id :: 0 <= id < MAX_IDS && Has(c, id) ==>
                 && Has(c', id)
                 && ChanOf(c', id) == if i <= id then ChanService(ChanOf(c, id), rt, now) else ChanOf(c, id)
    decreases MAX_IDS - i
  {
    hide ConnOk, ChanService;
    ConnTables(c, fp);
    if i < MAX_IDS {
      var k := c.ids[i];
      if k == -1 {
        ServiceReachesAll(c, i + 1, fp, rt, now);
      } else {
        ServiceKeeps(c, fp, k, rt, now);
        var c1 := SetChan(c, k, ChanService(c.slots[k].ch, rt, now));
        ConnTables(c1, fp);
        ServiceReachesAll(c1, i + 1, fp, rt, now);
        forall id | 0 <= id < MAX_IDS && Has(c, id) ensures Has(c1, id) && (id != i ==> ChanOf(c1, id) == ChanOf(c, id)) {
          assert c.slots[c.ids[id]].ch.info.id == id;
        }
      }
    }
  }


  // A write is refused for exactly one reason, the first of these that holds, with nothing
  // changed; otherwise it is taken whole. The window is not looked at before it is known.
  lemma WriteOutcome(p: Pool, o: Out, g: Gate, fp: nat, data: bytes)
    requires fp >= 64 && o.tail < |o.cells| && NOBUF !in p.free
    ensures var (p', o', r) := Write1(p, o, g, fp, data);
            var tight := g.reliable && g.status == Open && o.inFlight + |data| > g.window;
            && (r == Closed <==> g.status == Dead)
            && (r == TooBig <==> g.status != Dead && |data| > MAX_MSG)
            && (r == NoWindow <==> g.status != Dead && 0 < |data| <= MAX_MSG && tight)
            && (r == Again <==> g.status != Dead && 0 < |data| <= MAX_MSG && !tight && NextIx(o.tail) == o.head)
            && (r == NoMemory <==>
                  g.status != Dead && 0 < |data| <= MAX_MSG && !tight && NextIx(o.tail) != o.head && p.free == [])
            && (r.Written? ==> r.n == |data|) && (!r.Written? || data == [] ==> p' == p && o' == o)
  {
    hide FragTotal, Write, Put;
    assert p.free != [] ==> p.free[|p.free| - 1] in p.free;
    if 0 < |data| <= MAX_MSG { TotalBounded(|data|, fp); }
  }

  // ----- waiting for an acknowledgement -----

  // A fragment of a reliable message that goes out starts the wait of its slot afresh, counts
  // as the first attempt only if none was counted before, and moves no other slot.
  lemma EmitStartsWait(p: Pool, o: Out, fp: nat, k: nat, now: u32, rt: u32, later: u32)
    requires |o.cells| == OUTGOING_SLOTS && o.head < OUTGOING_SLOTS && o.tail < OUTGOING_SLOTS && k < OUTGOING_SLOTS
    requires Sendable1(o.cells[k])
    ensures var o' := Emit(p, o, true, fp, k, now).1; var m, m' := o.cells[k].meta, o'.cells[k].meta;
            && o' == o.(cells := o.cells[k := o.cells[k].(meta := m')])
            && m' == m.(sent := m.sent + 1, sentMs := now, attempts := if m.attempts > 0 then m.attempts else 1)
            && (Overdue(m', rt, later) <==> now != 0 && Minus32(later, now) >= Timeout(rt, m'.attempts))
  {
    hide Piece, Timeout;
  }

  // The wait before a message is sent again doubles with each attempt up to a second, as long
  // as the doubled number stays below 2^32; there it wraps.
  lemma TimeoutDoubles(rt: u32, n: nat)
    requires 1 <= n <= MAX_RT_ATTEMPTS
    ensures var factor := if n == 1 then 1 else if n == 2 then 2 else if n == 3 then 4 else if n == 4 then 8 else 16;
            && (rt * factor < 0x1_0000_0000 ==> Timeout(rt, n) == if rt * factor < 1000 then rt * factor else 1000)
            && Timeout(rt, n) <= 1000
    ensures rt == 0x1000_0000 && n == 5 ==> Timeout(rt, n) == 0
  {
    assert Doubled(0) == 1 && Doubled(1) == 2 && Doubled(2) == 4;
    assert Doubled(3) == 2 * Doubled(2) && Doubled(4) == 2 * Doubled(3);
  }

  // The service routine gives a channel up exactly when it is a reliable one that sends and a
  // message of its ring is overdue after five attempts.
  lemma DiesIff(ch: Chan, rt: u32, now: u32)
    ensures var ch' := ChanService(ch, rt, now);
            && ch' == ch.(out := ch.out.(cells := ch'.out.cells), info := ch.info.(status := ch'.info.status))
            && (ch'.info.status != ch.info.status ==> ch'.info.status == Dead)
            && (ch'.info.status == Dead <==>
                  ch.info.status == Dead
                  || (ch.info.sends && ch.info.kind == Reliable
                      && exists j :: 0 <= j < |ch.out.cells| && Exhausted(ch.out.cells[j].meta, rt, now)))
  {
    hide Retransmit, Exhausted;
    RetransmitRearms(ch.out.cells, rt, now, 0);
  }

  function Serviced(ch: Chan, rt: u32, nows: seq<u32>): Chan
    decreases |nows|
  {
    if nows == [] then ch else Serviced(ChanService(ch, rt, nows[0]), rt, nows[1..])
  }

  // Slot k is overdue each time the service routine comes.
  predicate AlwaysOverdue(ch: Chan, rt: u32, nows: seq<u32>, k: nat)
    decreases |nows|
  {
    nows == [] || (k < |ch.out.cells| && Overdue(ch.out.cells[k].meta, rt, nows[0])
                   && AlwaysOverdue(ChanService(ch, rt, nows[0]), rt, nows[1..], k))
  }

  // Main result for a message never acknowledged: overdue time after time, it is tried five
  // times in all, and the channel is dead at the next deadline at the latest.
  lemma {:induction false} GivesUpAfterFive(ch: Chan, rt: u32, nows: seq<u32>, k: nat)
    requires ch.info.sends && ch.info.kind == Reliable && k < |ch.out.cells| && AlwaysOverdue(ch, rt, nows, k)
    requires ch.out.cells[k].meta.attempts + |nows| > MAX_RT_ATTEMPTS && nows != []
    ensures Serviced(ch, rt, nows).info.status == Dead
    decreases |nows|
  {
    hide Retransmit, Overdue, Exhausted;
    var ch1 := ChanService(ch, rt, nows[0]);
    DiesIff(ch, rt, nows[0]);
    RetransmitRearms(ch.out.cells, rt, nows[0], 0);
    RetransmitSame(ch.out.cells, rt, nows[0], 0);
    if ch1.info.status == Dead {
      DeadStays(ch1, rt, nows[1..]);
    } else {
      assert !Exhausted(ch.out.cells[k].meta, rt, nows[0]);
      NotExhausted(ch.out.cells[k].meta, rt, nows[0]);
      assert ch1.out.cells[k] == Rearmed(ch.out.cells[k], nows[0]);
      GivesUpAfterFive(ch1, rt, nows[1..], k);
    }
  }

  lemma NotExhausted(m: OutMeta, rt: u32, now: u32)
    requires Overdue(m, rt, now) && !Exhausted(m, rt, now)
    ensures m.attempts < MAX_RT_ATTEMPTS
  {
  }

  lemma {:induction false} DeadStays(ch: Chan, rt: u32, nows: seq<u32>)
    requires ch.info.status == Dead
    ensures Serviced(ch, rt, nows).info.status == Dead
    decreases |nows|
  {
    hide ChanService;
    if nows != [] {
      DiesIff(ch, rt, nows[0]);
      DeadStays(ChanService(ch, rt, nows[0]), rt, nows[1..]);
    }
  }
}
