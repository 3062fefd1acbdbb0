// The calls an application makes on a connection, and what holds after any sequence of them.
module NetchanApi {
  import opened Bytes
  import opened NetchanPool
  import opened NetchanFrag
  import opened NetchanRecv
  import opened NetchanOverrun
  import opened NetchanSend
  import opened NetchanConn
  import opened NetchanFeed
  import opened NetchanOutput
  import NetchanSession

  // Sizes fixed when the connection is set up: the packet size and the receive window.
  datatype Config = Config(mtu: nat, limit: u32, rt: u32)

  predicate ConfigOk(cfg: Config) {
    cfg.mtu >= 79
  }

  // max_frag_payload
  function Share(cfg: Config): (fp: nat)
    requires ConfigOk(cfg)
    ensures fp >= 64
  {
    cfg.mtu - HDR_FULL - 8
  }

  function Upto(n: nat): (s: seq<int>)
    ensures |s| == n
  {
    if n == 0 then [] else Upto(n - 1) + [n - 1]
  }

  function BlankStore(n: nat): seq<bytes> {
    if n == 0 then [] else BlankStore(n - 1) + [Repeat(MAX_MSG, 0)]
  }

  function Start(server: bool): Conn {
    Conn(Pool(Upto(POOL_BUFS), BlankStore(POOL_BUFS), false), Repeat(MAX_CHAN, Vacant), Repeat(MAX_IDS, -1), [],
         Peer(server, New, 0, 0, if server then 1 else 0, 0))
  }

  // ----- calls -----

  function OpenBytes(id: byte, code: byte, dir: byte, ct: bytes): bytes
    requires |ct| < 64
  {
    [F_OPEN, id, code, dir, |ct|] + ct
  }

  function TwoOn(id: byte): byte {
    if id < 0xfe then id + 2 else id - 0xfe
  }

  // The id is spent even when no channel slot is left for it.
  function OpenChan(c: Conn, code: byte, dir: byte, ct: bytes, limit: u32): Conn
    requires |ct| < 64 && |c.ids| == MAX_IDS
  {
    var id := c.peer.nextId;
    if c.peer.state != Connected || c.ids[id] != -1 then c
    else
      var c1 := c.(peer := c.peer.(nextId := TwoOn(id)));
      if FindVacant(c.slots, 0) == -1 then c1
      else
        var c2 := AddChan(c1, Info(id, KindOf(code), dir == 0, if dir == 0 then Opening else Open, 0), limit);
        var c3 := Control(c2, OpenBytes(id, code, dir, ct));
        if dir == 0 then c3 else Control(c3, WindowBytes(id, limit))
  }

  function CloseChan(c: Conn, fp: nat, id: byte): Conn
    requires fp >= 64 && ConnOk(c, fp)
  {
    var k := c.ids[id];
    if k == -1 || c.slots[k].ch.info.status == Closing || c.slots[k].ch.info.status == Dead then c
    else Control(SetChan(c, k, WithStatus(c.slots[k].ch, Closing)), CloseBytes(id, 0))
  }

  function WriteChan(c: Conn, fp: nat, id: byte, data: bytes): (Conn, WriteResult)
    requires fp >= 64 && ConnOk(c, fp)
  {
    var k := c.ids[id];
    if k == -1 then (c, Refused)
    else
      var (p, ch, r) := ChanWrite(c.pool, c.slots[k].ch, fp, data);
      (Stored(c, k, p, ch), r)
  }

  function ReadChan(c: Conn, fp: nat, id: byte, room: nat): (Conn, bytes)
    requires fp >= 64 && ConnOk(c, fp)
  {
    var k := c.ids[id];
    if k == -1 then (c, [])
    else
      var (p, ch, data) := ChanRead(c.pool, c.slots[k].ch, room);
      (Stored(c, k, p, ch), data)
  }

  // Retransmission for every channel from id i on.
  function ServiceFrom(c: Conn, i: nat, fp: nat, rt: u32, now: u32): Conn
    requires fp >= 64 && ConnOk(c, fp)
    decreases MAX_IDS - i
  {
    if i >= MAX_IDS then c
    else
      var k := c.ids[i];
      if k == -1 then ServiceFrom(c, i + 1, fp, rt, now)
      else
        ServiceKeeps(c, fp, k, rt, now);
        ServiceFrom(SetChan(c, k, ChanService(c.slots[k].ch, rt, now)), i + 1, fp, rt, now)
  }

  function Connect(c: Conn, newId: u32): Conn {
    if c.peer.server || c.peer.state != New then c
    else Control(c.(peer := c.peer.(localId := newId, state := Connecting)), [F_INIT] + Wr32(newId) + [VERSION])
  }

  function Accept(c: Conn, idle: u32): Conn {
    if !c.peer.server || c.peer.state != Connecting then c
    else Control(c, [F_ACCEPT] + Wr32(c.peer.localId) + [VERSION] + Wr32(idle)).(peer := c.peer.(state := Connected))
  }

  function Disconnect(c: Conn): Conn {
    if c.peer.state != Connected then c
    else Control(c, [F_DISCONNECT] + Wr16(0)).(peer := c.peer.(state := Leaving))
  }

  // ----- each call keeps the pool partitioned -----

  lemma OpenKeeps(c: Conn, fp: nat, code: byte, dir: byte, ct: bytes, limit: u32)
    requires fp >= 64 && ConnOk(c, fp) && |ct| < 64
    ensures ConnOk(OpenChan(c, code, dir, ct, limit), fp)
  {
    hide ConnOk, AddChan;
    ConnTables(c, fp);
    var id := c.peer.nextId;
    if c.peer.state == Connected && c.ids[id] == -1 {
      var c1 := c.(peer := c.peer.(nextId := TwoOn(id)));
      SessionKeeps(c, c1, fp);
      if FindVacant(c.slots, 0) != -1 {
        var info := Info(id, KindOf(code), dir == 0, if dir == 0 then Opening else Open, 0);
        AddChanKeeps(c1, info, limit, fp);
        SessionKeeps(AddChan(c1, info, limit), OpenChan(c, code, dir, ct, limit), fp);
      }
    }
  }

  lemma ShutKeeps(c: Conn, fp: nat, id: byte)
    requires fp >= 64 && ConnOk(c, fp)
    ensures ConnOk(CloseChan(c, fp, id), fp)
  {
    hide ConnOk;
    ConnTables(c, fp);
    var k := c.ids[id];
    if k != -1 {
      InfoKeeps(c, fp, k, WithStatus(c.slots[k].ch, Closing));
      SessionKeeps(SetChan(c, k, WithStatus(c.slots[k].ch, Closing)),
                   Control(SetChan(c, k, WithStatus(c.slots[k].ch, Closing)), CloseBytes(id, 0)), fp);
    }
  }

  lemma WriteKeeps(c: Conn, fp: nat, id: byte, data: bytes)
    requires fp >= 64 && ConnOk(c, fp)
    ensures ConnOk(WriteChan(c, fp, id, data).0, fp)
  {
    hide ChanHeld, Whole, AllHeld, ChanWrite, Single, RxOk, Windowed, SlotOk;
    var k := c.ids[id];
    if k != -1 {
      ChanHolds(c, fp, k);
      ChanWriteKept(c.pool, c.slots[k].ch, fp, data);
      var (p, ch, r) := ChanWrite(c.pool, c.slots[k].ch, fp, data);
      ChanStepKeeps(c, fp, k, p, ch);
    }
  }

  lemma ReadKeeps(c: Conn, fp: nat, id: byte, room: nat)
    requires fp >= 64 && ConnOk(c, fp)
    ensures ConnOk(ReadChan(c, fp, id, room).0, fp)
  {
    hide ChanHeld, Whole, AllHeld, ChanRead, Single, Windowed, SlotOk;
    var k := c.ids[id];
    if k != -1 {
      ChanHolds(c, fp, k);
      ChanReadKept(c.pool, c.slots[k].ch, fp, room);
      var (p, ch, data) := ChanRead(c.pool, c.slots[k].ch, room);
      ChanStepKeeps(c, fp, k, p, ch);
    }
  }

  lemma ServiceKeeps(c: Conn, fp: nat, k: nat, rt: u32, now: u32)
    requires fp >= 64 && ConnOk(c, fp) && k < MAX_CHAN && c.slots[k].Used?
    ensures ConnOk(SetChan(c, k, ChanService(c.slots[k].ch, rt, now)), fp)
  {
    hide ChanHeld, Whole, AllHeld, ChanService, Single, RxOk, Windowed, SlotOk;
    ChanHolds(c, fp, k);
    ChanServiceKept(c.pool, c.slots[k].ch, fp, rt, now);
    ChanStepKeeps(c, fp, k, c.pool, ChanService(c.slots[k].ch, rt, now));
  }

  lemma {:induction false} ServiceAllKeeps(c: Conn, i: nat, fp: nat, rt: u32, now: u32)
    requires fp >= 64 && ConnOk(c, fp)
    ensures ConnOk(ServiceFrom(c, i, fp, rt, now), fp)
    decreases MAX_IDS - i
  {
    hide ConnOk, ChanService;
    ConnTables(c, fp);
    if i < MAX_IDS {
      var k := c.ids[i];
      if k == -1 {
        ServiceAllKeeps(c, i + 1, fp, rt, now);
      } else {
        ServiceKeeps(c, fp, k, rt, now);
        ServiceAllKeeps(SetChan(c, k, ChanService(c.slots[k].ch, rt, now)), i + 1, fp, rt, now);
      }
    }
  }

  lemma {:induction false} UptoOnce(n: nat)
    ensures forall b :: multiset(Upto(n))[b] == if 0 <= b < n then 1 else 0
  {
    if n > 0 {
      UptoOnce(n - 1);
    }
  }

  lemma {:induction false} BlankSized(n: nat)
    ensures |BlankStore(n)| == n && forall b :: 0 <= b < n ==> |BlankStore(n)[b]| == MAX_MSG
  {
    if n > 0 {
      BlankSized(n - 1);
    }
  }

  lemma StartOk(server: bool, fp: nat)
    requires fp > 0
    ensures ConnOk(Start(server), fp)
  {
    hide AllHeld, Upto, BlankStore, Repeat;
    var c := Start(server);
    UptoOnce(POOL_BUFS);
    BlankSized(POOL_BUFS);
    RepeatAll(MAX_CHAN, Vacant);
    RepeatAll(MAX_IDS, -1);
    AllVacant(c.slots);
    assert FreeBag(c.pool) + multiset{} == FreeBag(c.pool);
  }

  // ----- any sequence of calls and packets -----

  datatype Call =
    | CallOpen(code: byte, dir: byte, ct: bytes)
    | CallClose(id: byte)
    | CallWrite(id: byte, data: bytes)
    | CallRead(id: byte, room: nat)
    | CallFeed(pkt: bytes, newId: u32)
    | CallSend(room: nat, now: u32)
    | CallService(now: u32)
    | CallConnect(newId: u32)
    | CallAccept(idle: u32)
    | CallDisconnect

  function Do(c: Conn, cfg: Config, call: Call): Conn
    requires ConfigOk(cfg) && ConnOk(c, Share(cfg))
  {
    var fp := Share(cfg);
    match call
    case CallOpen(code, dir, ct) => if |ct| < 64 then OpenChan(c, code, dir, ct, cfg.limit) else OpenChan(c, code, dir, ct[..63], cfg.limit)
    case CallClose(id) => CloseChan(c, fp, id)
    case CallWrite(id, data) => WriteChan(c, fp, id, data).0
    case CallRead(id, room) => ReadChan(c, fp, id, room).0
    case CallFeed(pkt, newId) => Feed(c, pkt, fp, cfg.limit, newId).0
    case CallSend(room, now) => SendNext(c, room, cfg.mtu, fp, now).0
    case CallService(now) => ServiceFrom(c, 0, fp, cfg.rt, now)
    case CallConnect(newId) => Connect(c, newId)
    case CallAccept(idle) => Accept(c, idle)
    case CallDisconnect => Disconnect(c)
  }

  lemma DoKeeps(c: Conn, cfg: Config, call: Call)
    requires ConfigOk(cfg) && ConnOk(c, Share(cfg))
    ensures var c' := Do(c, cfg, call); (c'.pool.spilled && call.CallFeed?) || ConnOk(c', Share(cfg))
  {
    hide ConnOk, Feed, SendNext, ServiceFrom, WriteChan, ReadChan, OpenChan, CloseChan;
    var fp := Share(cfg);
    ConnTables(c, fp);
    match call
    case CallOpen(code, dir, ct) => OpenKeeps(c, fp, code, dir, if |ct| < 64 then ct else ct[..63], cfg.limit);
    case CallClose(id) => ShutKeeps(c, fp, id);
    case CallWrite(id, data) => WriteKeeps(c, fp, id, data);
    case CallRead(id, room) => ReadKeeps(c, fp, id, room);
    case CallFeed(pkt, newId) => FeedKeeps(c, pkt, fp, cfg.limit, newId);
    case CallSend(room, now) => SendKeeps(c, room, cfg.mtu, fp, now);
    case CallService(now) => ServiceAllKeeps(c, 0, fp, cfg.rt, now);
    case CallConnect(newId) => SessionKeeps(c, Connect(c, newId), fp);
    case CallAccept(idle) => SessionKeeps(c, Accept(c, idle), fp);
    case CallDisconnect => SessionKeeps(c, Disconnect(c), fp);
  }

  // A run of calls, followed up to a write outside its buffer.
  function DoAll(c: Conn, cfg: Config, calls: seq<Call>): (c': Conn)
    requires ConfigOk(cfg) && ConnOk(c, Share(cfg))
    ensures c'.pool.spilled || ConnOk(c', Share(cfg))
    decreases |calls|
  {
    if calls == [] then c
    else
      DoKeeps(c, cfg, calls[0]);
      var c1 := Do(c, cfg, calls[0]);
      if c1.pool.spilled then c1 else DoAll(c1, cfg, calls[1..])
  }

  // Main result: after any calls and any packets, none of which overfilled an assembly, every
  // buffer is free or held once, a reliable sender's bytes in flight are the bytes of its
  // active slots, and closing returns all sixty-four buffers.
  lemma PoolStaysPartitioned(server: bool, cfg: Config, calls: seq<Call>)
    requires ConfigOk(cfg)
    ensures ConnOk(Start(server), Share(cfg))
    ensures var c := DoAll(Start(server), cfg, calls);
            !c.pool.spilled ==>
            && Whole(FreeBag(c.pool) + AllHeld(c.slots))
            && Whole(FreeBag(CloseFrom(c, 0, Share(cfg)).pool))
            && forall k :: 0 <= k < |c.slots| && c.slots[k].Used? && c.slots[k].ch.info.kind == Reliable ==>
                 c.slots[k].ch.out.inFlight == ActiveLen(c.slots[k].ch.out.cells)
  {
    hide Whole, AllHeld, ActiveLen, CloseFrom, Start, DoAll, OutOk, RxOk, Windowed;
    StartOk(server, Share(cfg));
    if !DoAll(Start(server), cfg, calls).pool.spilled {
      CloseReturnsAll(DoAll(Start(server), cfg, calls), Share(cfg));
    }
  }

  // What one channel does to the pool is, to every other channel of the connection, one of
  // the pool changes the two-party runs allow.
  lemma OthersAreElsewhere(c: Conn, fp: nat, k: nat, p: Pool, ch: Chan, j: nat)
    requires fp > 0 && ConnOk(c, fp) && k < MAX_CHAN && c.slots[k].Used?
    requires ChanKept(c.pool, c.slots[k].ch, p, ch, fp)
    requires j < MAX_CHAN && j != k && c.slots[j].Used?
    ensures NetchanSession.Elsewhere(c.pool, p, Bufs(c.slots[j].ch.out.cells))
    ensures NetchanSession.Elsewhere(c.pool, p, Held(c.slots[j].ch.rx))
  {
    hide Bufs, Held, Single, AllHeld, Whole, ChanOk, Kept;
    ChanStepApart(c, fp, k, p, ch, j);
    SideHolds(p, c.slots[j].ch);
  }

  // So a DATA frame, whatever it carries, leaves every other channel's buffers alone, unless
  // it brings the last fragment of an assembly longer than a buffer.
  lemma DataLeavesOthers(c: Conn, fp: nat, id: byte, f: Frame, j: nat)
    requires fp >= 64 && ConnOk(c, fp) && !ConnOverfills(c, fp, id, f)
    requires j < MAX_CHAN && j != c.ids[id] && c.slots[j].Used?
    ensures var c' := OnData(c, fp, id, f);
            && NetchanSession.Elsewhere(c.pool, c'.pool, Bufs(c.slots[j].ch.out.cells))
            && NetchanSession.Elsewhere(c.pool, c'.pool, Held(c.slots[j].ch.rx))
  {
    hide Bufs, Held, Single, AllHeld, Whole, ChanOk, Kept, ChanOverfills, ChanData, ChanHeld;
    var k := c.ids[id];
    ChanHolds(c, fp, j);
    if k == -1 {
      SideHolds(c.pool, c.slots[j].ch);
    } else {
      ChanHolds(c, fp, k);
      ChanDataKept(c.pool, c.slots[k].ch, fp, f);
      var (p, ch) := ChanData(c.pool, c.slots[k].ch, fp, f);
      OthersAreElsewhere(c, fp, k, p, ch, j);
    }
  }
}
