// Two-party runs of a reliable channel: the reader misses a message that was consumed, and so
// acknowledged, exactly when some message had its turn with no room for it or what followed.
module NetchanLoss {
  import opened Bytes
  import opened Wrappers
  import opened NetchanPool
  import opened NetchanFrag
  import opened NetchanRecv
  import opened NetchanRead
  import opened NetchanData
  import opened NetchanDeliver
  import opened NetchanSend
  import opened NetchanHonest
  import opened NetchanSession

  // The step feeds a frame that completes the message wanted, and there is no room for it and
  // those that waited for it: a test on the receiving end before the call.
  ghost predicate Loses(s: Sys, l: Label, fp: nat) {
    && l.DoFeed? && Fine(s.rcv.pool, s.rcv.rx)
    && var p, r := s.rcv.pool, s.rcv.rx;
       match HandsUp(p, r, fp, l.f)
       case Some(data) => l.f.seqno == r.seqno && !RoomFor(data, Following(r), Places(r.queue), |p.free|)
       case None => false
  }

  // Messages consumed and neither queued nor read.
  ghost function Missed(s: Sys): int
    requires QueueOk(s.rcv.rx.queue)
  {
    s.rcv.rx.seqno - |s.log| - |Queued(s.rcv.pool, s.rcv.rx.queue)|
  }

  lemma InvParts(s: Sys, fp: nat)
    requires fp >= 64 && Inv(s, fp)
    ensures Fine(s.rcv.pool, s.rcv.rx) && RxOk(s.rcv.rx) && PoolOk(s.rcv.pool) && s.rcv.rx.seqno <= |s.w| < 0x8000
    ensures Subseq(s.log + Queued(s.rcv.pool, s.rcv.rx.queue), s.w[..s.rcv.rx.seqno])
  {
  }

  // ----- one step -----

  lemma FeedMisses(s: Sys, f: Frame, fp: nat)
    requires fp >= 64 && Inv(s, fp) && f in s.net && Fine(s.rcv.pool, s.rcv.rx) && RxOk(s.rcv.rx)
    ensures var (p', r') := FeedData(s.rcv.pool, s.rcv.rx, true, fp, f.seqno, f.idx, f.total, f.data);
            !p'.spilled ==>
              QueueOk(r'.queue)
              && var missed := r'.seqno - |s.log| - |Queued(p', r'.queue)|;
                 if Loses(s, DoFeed(f), fp) then missed > Missed(s) else missed == Missed(s)
  {
    hide Inv, Fine, FeedData, HandsUp, Queued, Places, RoomFor, InTurn, Following, Msgs;
    var p, r := s.rcv.pool, s.rcv.rx;
    InvParts(s, fp);
    FrameQueues(p, r, fp, f);
    match HandsUp(p, r, fp, f)
    case None =>
    case Some(data) =>
      OutcomeLater(p, r, data, |p.free|);
      InTurnIff(data, Msgs(p, r.pend.reorder, Next16(r.seqno), Following(r)), Places(r.queue), |p.free|);
  }

  lemma ReadMisses(s: Sys, room: nat, fp: nat)
    requires fp >= 64 && Inv(s, fp) && PoolOk(s.rcv.pool) && QueueOk(s.rcv.rx.queue)
    ensures var s' := AfterRead(s, room); QueueOk(s'.rcv.rx.queue) && Missed(s') == Missed(s)
  {
    hide Inv, Queued, Dequeue, Bufs;
    InvParts(s, fp);
    var q := s.rcv.rx.queue;
    if q.head != q.tail && Queued(s.rcv.pool, q) != [] {
      FineHolds(s.rcv.pool, s.rcv.rx);
      DequeueKept(s.rcv.pool, q, room, PendHeld(s.rcv.rx.pend));
    }
  }

  lemma FineHolds(p: Pool, r: Rx)
    requires Fine(p, r)
    ensures Holds(p, Bufs(r.queue.cells) + PendHeld(r.pend))
  {
  }

  lemma PoolMisses(s: Sys, p: Pool, fp: nat)
    requires fp >= 64 && Inv(s, fp) && Elsewhere(s.rcv.pool, p, Held(s.rcv.rx)) && QueueOk(s.rcv.rx.queue)
    ensures Missed(s.(rcv := s.rcv.(pool := p))) == Missed(s)
  {
    hide Inv, Queued, Bufs;
    InvParts(s, fp);
    QueuedSpared(s.rcv.pool, p, s.rcv.rx.queue);
  }

  // Every step leaves the number missed as it is, except that one which loses raises it.
  lemma StepMisses(s: Sys, l: Label, s': Sys, fp: nat)
    requires fp >= 64 && Inv(s, fp) && Next(s, l, s', fp) && Inv(s', fp)
    ensures QueueOk(s.rcv.rx.queue) && QueueOk(s'.rcv.rx.queue)
    ensures if Loses(s, l, fp) then Missed(s') > Missed(s) else Missed(s') == Missed(s)
  {
    hide Inv, Fine, HandsUp, Queued, FeedData, Write1, Emit, Ack, Retransmit, AfterRead, RoomFor, QueueOk;
    InvParts(s, fp);
    InvParts(s', fp);
    match l
    case DoFeed(f) => FeedMisses(s, f, fp);
    case DoRead(room) => ReadMisses(s, room, fp);
    case ReceiverPool(p) => PoolMisses(s, p, fp);
    case _ =>
  }

  // ----- every run -----

  lemma NothingMissed(s: Sys, fp: nat)
    requires fp >= 64 && Init(s, fp)
    ensures QueueOk(s.rcv.rx.queue) && Missed(s) == 0
  {
    hide Bufs, Queued;
    EmptyOk(s.rcv.pool, s.rcv.rx);
  }

  lemma {:induction false} MissedIff(run: seq<Sys>, steps: seq<Label>, fp: nat, i: nat)
    requires fp >= 64 && IsRun(run, steps, fp) && i < |run|
    ensures QueueOk(run[i].rcv.rx.queue)
    ensures Missed(run[i]) >= 0
    ensures Missed(run[i]) == 0 <==> forall j :: 0 <= j < i ==> !Loses(run[j], steps[j], fp)
  {
    hide Inv, Next, Init, Loses, Missed, QueueOk;
    if i == 0 {
      NothingMissed(run[0], fp);
    } else {
      MissedIff(run, steps, fp, i - 1);
      RunKeepsInv(run, steps, fp, i - 1);
      RunKeepsInv(run, steps, fp, i);
      StepMisses(run[i - 1], steps[i - 1], run[i], fp);
    }
  }

  // An ordered part that is as long as the whole is the whole.
  lemma {:induction false} SubseqFull(log: seq<bytes>, w: seq<bytes>)
    requires Subseq(log, w)
    ensures |log| <= |w|
    ensures |log| == |w| ==> log == w
    decreases |w|
  {
    if log != [] {
      if log[|log| - 1] == w[|w| - 1] && Subseq(log[..|log| - 1], w[..|w| - 1]) {
        SubseqFull(log[..|log| - 1], w[..|w| - 1]);
        assert log == log[..|log| - 1] + [log[|log| - 1]] && w == w[..|w| - 1] + [w[|w| - 1]];
      } else {
        SubseqFull(log, w[..|w| - 1]);
      }
    }
  }

  // Main result: in every run, what was read followed by what is queued is exactly what was
  // consumed, with nothing missing, if and only if no step so far fed the message wanted when
  // there was no room for it and those that waited for it.
  lemma RunsReadAllIff(run: seq<Sys>, steps: seq<Label>, fp: nat, i: nat)
    requires fp >= 64 && IsRun(run, steps, fp) && i < |run|
    ensures var s := run[i]; var r := s.rcv.rx;
            && QueueOk(r.queue) && r.seqno <= |s.w|
            && (s.log + Queued(s.rcv.pool, r.queue) == s.w[..r.seqno]
                <==> forall j :: 0 <= j < i ==> !Loses(run[j], steps[j], fp))
  {
    hide Inv, IsRun, Loses, Queued, Subseq;
    RunKeepsInv(run, steps, fp, i);
    MissedIff(run, steps, fp, i);
    var s := run[i];
    InvParts(s, fp);
    SubseqFull(s.log + Queued(s.rcv.pool, s.rcv.rx.queue), s.w[..s.rcv.rx.seqno]);
  }
}
