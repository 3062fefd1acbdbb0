# netchan, verified

A Dafny model of the protocols in this repository and proofs of what they promise. The
models follow the code branch by branch: 16-bit and 32-bit fields wrap, buffers are bounded
and error paths are modelled. Structs whose fields the code updates are classes, and its loops
over slots, cells, heaps and buffers are loops here, each proved against a function. The short
straight pieces that touch the pool and a receiving ring together (storing a fragment, queueing
a message, putting one aside, taking the next fragment out) are calls of that function.

`dafny verify dfyconfig.toml` checks the whole project.

## What is modelled

| files | what |
|---|---|
| `microchan_machine`, `microchan_endpoint` | the Go-Back-N transport: a value machine of one endpoint and the struct with its 16-bit cursors and slots, method by method equal to it |
| `microchan_session`, `microchan_progress`, `microchan_timer` | two endpoints over a network that loses, repeats and reorders: safety of every run; recovery after a timeout; when the timer is there to run out |
| `microchan_unrel`, `microchan_link` | what becomes of unreliable messages; coming up, staying up and going down |
| `netchan_pool`, `netchan_frag`, `netchan_recv`, `netchan_data` | the shared buffer pool, fragmentation and in-place reassembly, the reorder window, one DATA frame |
| `netchan_overrun`, `netchan_guard` | when reassembly writes past the end of a buffer, exactly, and the check on a packet that rules it out |
| `netchan_read`, `netchan_send` | reading with its byte count; the outgoing ring, acks, retransmission |
| `netchan_deliver`, `netchan_ack` | which messages in turn are queued and which are lost; what an acknowledgement is worth |
| `netchan_honest`, `netchan_whole`, `netchan_session`, `netchan_loss` | what the receiver makes of an honest sender's frames; delivery of a whole message; two-party runs, and which of them lose nothing |
| `netchan_conn`, `netchan_feed`, `netchan_output`, `netchan_api`, `netchan_object` | the whole connection: sixteen channels on one pool, parsing arbitrary bytes, building packets, the API, and the object with its loops |
| `netchan_wire`, `netchan_release`, `netchan_link` | what a packet says and what the other end makes of it; which messages an acknowledgement gives up; handshake and channels opened from one end to the other |
| `thor_region`, `thor_map` | the cave generator on any grid |
| `thor_rules`, `thor_laws`, `thor_ticks`, `thor_world` | one tick as a function of the world; what its phases amount to; whole ticks and runs of them; the tables updated in place |
| `crypto_replay`, `crypto_session` | the replay window, sealing and opening, the handshake |
| `auth_server`, `auth_session`, `auth_login` | the login conversation, server and client, and whole logins |
| `auth_text`, `auth_form`, `auth_codec`, `auth_framer` | decimal text, the form codec, the stream framer |
| `pq_heap` | the hole-sifting binary heap |
| `microser`, `beacon` | tagged fields and the discovery packet |
| `bytes`, `ring`, `wrappers` | wire words and wrapping arithmetic, the bounded ring, the missing value |

Two-party systems keep every datagram ever sent in a set: delivering one again, late or never
is how the network repeats, reorders and drops. Unbounded ghost numbers stand beside the
16-bit fields. Callbacks, clocks, random draws and library cryptography are parameters of the
steps, so results hold for every answer they could give.

Proofs use `hide` to keep definitions a proof does not need out of the solver's way.

## Where a promise needs a condition

- microchan is proved to deliver a prefix while nothing older than 2^15 numbers arrives.
  `MicrochanSession.StaleRecordIsTaken` and `MicrochanSession.StaleAckReleases` say exactly which
  older records and acks are taken for new ones.
- netchan checks that each fragment ends within the buffer, not that it is no longer than its
  share (src/netchan.c:841, src/netchan.c:897). Fragments can therefore be longer together than
  the buffer, and compaction then moves the last ones into what lies behind it, as a rule
  another channel's buffer (`NetchanOverrun.TwoFramesSpill`). `NetchanOverrun.FrameSpillsIff`
  says exactly when. A pool in the model carries a flag, `spilled`, that is set there and
  nowhere else; that buffers are apart and conserved is claimed while it is not set, and the
  model does not follow a run beyond. `NetchanGuard` proves that it stays unset as long as no
  fragment is longer than the share, which a caller can make sure of by not feeding packets
  longer than the mtu, or than the mtu less 2 behind the short header of a connection being
  set up.
- microchan arms its timer by adding to a 32-bit clock, and 0 means no timer
  (microchan/src/microchan.c:372, microchan/src/microchan.c:579). At 2^32 - 120 ms the sum is 0
  and data goes without one (`MicrochanTimer.LostFromStart`); `MicrochanTimer.RunOnClockIff` says
  exactly in which runs.
- microchan checks a buffer for the 8 bytes of the header and writes SYN and SYNACK with 12
  (microchan/src/microchan.c:518-556): `MicrochanMachine.PacketFitsIff`,
  `MicrochanMachine.SynOverruns`.
- A netchan ack says that messages were consumed, not that they were queued. A message whose
  turn comes at a full ring or with no buffer free is dropped and its number passed over
  (src/netchan.c:542-548, src/netchan.c:869-873), and so may be those waiting behind it:
  `NetchanAck.FullRingLoses`, `NetchanAck.EmptyPoolLoses`, `NetchanAck.SixtyFourthLost`.
  `NetchanAck.ConsumedQueuedIff` says for one frame when all are queued, `NetchanLoss.RunsReadAllIff`
  for a run, `NetchanWhole.AnyOrderYieldsIff` for the fragments of a message.
- While recv_seq is 0, before the first message and each time the numbers have come round, the
  ack is 0 and covers the next message (src/netchan.c:941): `NetchanAck.AckBeforeDelivery`,
  `NetchanAck.AckAfterWrap`, `NetchanAck.AckMeansConsumedIff`.
- recv_buffered is the queued byte count until a read is cut short
  (`NetchanRead.CountKeptIff`, `NetchanRead.CutReadMiscounts`).
- A form round trip needs numbers that can be read back: `AuthText.FmtParses` says which. A
  title or note of 65536 bytes or more is sent with its length cut to 16 bits; the normal form
  says so.
- The in-flight byte count is right of RELIABLE channels: an ack also lowers it for
  unreliable ones, whose writes never raised it (src/netchan.c:966). `NetchanAck.UnreliableCountWraps`
  shows what comes of it, `NetchanSend.WriteAccountedIff` and `NetchanSend.UncountedAckIff` when.
- A key login is bound to its session as far as the hash and the signature are:
  `AuthServer.SignatureIsBound` names the two things that would undo it.
- A shot is said to travel SHOT_RANGE tiles (microchan/examples/thor/game.h:22) and travels one
  more (microchan/examples/thor/game.c:335-339): `ThorTicks.FliesItsRange`,
  `ThorTicks.ShotReachesSeventh`.
- Two ends with different keys hold different keys as far as the hash does not collide on what
  the two of them hash: `CryptoSession.AgreementMeansSame`.
- A netchan fragment sent when the clock stands at 0 is never overdue
  (src/netchan.c:1492): `NetchanLink.EmitStartsWait`.
- The wait for a netchan ack doubles while the doubled number fits 32 bits
  (src/netchan.c:1494); beyond, it wraps: `NetchanLink.TimeoutDoubles`.

## Model

| member | source | states |
|---|---|---|
| MicrochanSession.RunsDeliverPrefixes | microchan/src/microchan.c:310-403 | In every run of two endpoints over a network that drops, repeats and reorders, with no datagram older than 2^15 numbers delivered: per reliable channel, what was read is a prefix of what was written, and base <= consumed <= written <= base + 8 in unbounded numbers while the 16-bit fields wrap |
| MicrochanSession.StepKeepsInv | microchan/src/microchan.c:310-663 | Every write, read, send, feed, service or connect of either side keeps both directions of the transfer invariant |
| MicrochanSession.AckMoves | microchan/src/microchan.c:360-374 | A cumulative ack from within half the number space moves the window base exactly to it, or not at all when it is stale |
| MicrochanSession.DeliverOne | microchan/src/microchan.c:376-403 | A reliable record is consumed exactly when it is the next message and its ring has room; otherwise nothing moves, and an ack is owed either way |
| MicrochanSession.StaleRecordIsTaken | microchan/src/microchan.c:382-391 | Why the age bound is needed: a record is taken as the next one if and only if its number differs by a multiple of 2^16 |
| MicrochanSession.StaleAckReleases | microchan/src/microchan.c:360-374 | And for acks: one d messages old releases messages that were not acknowledged if and only if d modulo 2^16 is more than 2^15 |
| MicrochanSession.SendKeepsFlow | microchan/src/microchan.c:510-605 | A sent datagram says only what its sender holds: its records are a slice of the messages written and its ack is what was consumed |
| MicrochanSession.DeliverRel | microchan/src/microchan.c:376-403 | A whole run of consecutive records, in any position relative to the reader, keeps every channel equal to the projection of what was consumed |
| MicrochanProgress.TimeoutRecovers | microchan/src/microchan.c:641-656 | From a connected, drained pair with data overdue and below the attempt and idle limits: one timeout, one lossless exchange out and one back leave the whole window consumed and acknowledged |
| MicrochanProgress.ReachableRecovers | microchan/src/microchan.c:360-656 | The same from every reachable state with both ends connected, whichever side is overdue |
| MicrochanTimer.RunOnClockIff | microchan/src/microchan.c:360-659 | In every run from the start: no state up to the i-th has unacknowledged data that is neither on the retransmit timer nor still unsent, if and only if no step before was a send or an ack that lapses, each a test on the state before the call |
| MicrochanTimer.SendLapsesIff | microchan/src/microchan.c:563-580 | Definition unfolded, for RunOnClockIff: a data packet leaves data off the timer exactly when it carries the last of the window, no timer runs and now + 120 wraps to 0 |
| MicrochanTimer.AckLapsesIff | microchan/src/microchan.c:360-374 | Definition unfolded, for RunOnClockIff: an ack does exactly when it releases part of a window wholly on the wire while now + 120 wraps to 0 |
| MicrochanTimer.RetransmitIff | microchan/src/microchan.c:641-656 | Definition unfolded, for RunOnClockIff: the retransmit step neither takes data off the timer nor puts it back |
| MicrochanTimer.TimerLost | microchan/src/microchan.c:578-579 | One message sent at 2^32 - 120 ms has no timer, and no later retransmit step changes that |
| MicrochanTimer.LostFromStart | microchan/src/microchan.c:218-659 | From the start: a client whose clock stands at 2^32 - 120 ms connects, writes and sends its first message, which then has no timer |
| MicrochanTimer.RunKeepsTimer | microchan/src/microchan.c:360-659 | A run in which neither clock is ever at 2^32 - 120 ms keeps its timers |
| MicrochanProgress.RunKeepsIds | microchan/src/microchan.c:405-504 | In every run the connection ids two connected ends hold of each other are right |
| MicrochanUnreliable.DrainFills | microchan/src/microchan.c:333-604 | On a connected link everything waiting on an unreliable channel becomes readable at the peer in the order written, as far as its ring has places |
| MicrochanUnreliable.WrittenArrives | microchan/src/microchan.c:310-604 | So, with nothing waiting and the ring drained, what is written arrives: all of it up to four messages, and the newest four of more |
| MicrochanUnreliable.ReadWasWritten | microchan/src/microchan.c:295-604 | In every run, over drops, repeats and reordering: whatever is read on an unreliable channel the peer has written to that channel before |
| MicrochanUnreliable.PacketFills | microchan/src/microchan.c:376-403 | A whole data packet: the ring of an unreliable channel gains that channel unreliable messages, in the order packed, until it is full, and nothing of the reliable ones |
| MicrochanUnreliable.UnreliableArrives | microchan/src/microchan.c:395-401 | One record: its bytes, cut to the longest message, join the ring of an open channel with a place; otherwise nothing changes |
| MicrochanUnreliable.NewestWait | microchan/src/microchan.c:333-345 | Written to an unreliable channel, exactly the newest four messages wait to be sent |
| MicrochanUnreliable.ReadTakesOldest | microchan/src/microchan.c:295-308 | A read takes exactly the oldest message, if the buffer holds it, and otherwise nothing |
| MicrochanLink.HandshakeConnects | microchan/src/microchan.c:405-556 | SYN, SYNACK and ACK, lost before or not, bring both ends up with each other name and touch nothing but handshakes and clocks |
| MicrochanLink.FreshEndsMeet | microchan/src/microchan.c:218-556 | Two ends just opened are in a state from which that exchange connects them, as soon as the client calls connect |
| MicrochanLink.FreshIsSilent | microchan/src/microchan.c:295-605 | An end just opened sends nothing, takes no write and holds nothing to read |
| MicrochanLink.GivesUpAfter | microchan/src/microchan.c:611-631 | A handshake never answered: every lapsed deadline makes the packet due again, 240 times, and the next one closes the connection |
| MicrochanLink.HandshakeClosesIff | microchan/src/microchan.c:611-631 | A handshake closes exactly when a deadline passes with all retries made, and the caller is told |
| MicrochanLink.EarlyServiceWaits | microchan/src/microchan.c:611-631 | Before its deadline a handshake is left as it is |
| MicrochanLink.DataGivesUpAfter | microchan/src/microchan.c:641-656 | Data never acknowledged: each lapsed deadline puts the whole window back to unsent and doubles the wait up to 960 ms, 12 times, and the next one closes the connection |
| MicrochanLink.ClosesIff | microchan/src/microchan.c:633-656 | A connection that is up goes down exactly after ten silent seconds or at the thirteenth deadline of the same data, and the caller is told |
| MicrochanLink.ServiceSpeaksIff | microchan/src/microchan.c:633-663 | After the service routine a packet is due exactly when one was before, data is to be sent again, or nothing was sent for a second |
| MicrochanLink.PacketIsHeard | microchan/src/microchan.c:405-605 | A packet sent restarts the keepalive of its sender and, at the peer, the wait for giving it up |
| MicrochanLink.RefusedIff | microchan/src/microchan.c:405-504 | A packet is refused exactly when it is short, of unknown kind, for the other role or, unless a SYN, not addressed here |
| MicrochanLink.RefusedChangesNothing | microchan/src/microchan.c:405-504 | And then changes nothing, but that something was heard |
| MicrochanLink.FinAndData | microchan/src/microchan.c:456-500 | FIN closes; data wakes a server still waiting for the last packet of the handshake |
| MicrochanLink.WriteOutcome | microchan/src/microchan.c:310-346 | A write is taken whole at the end of the right queue, or refused for exactly one reason with nothing changed |
| MicrochanLink.AckRestarts | microchan/src/microchan.c:360-374 | An ack that releases anything forgives the tries made and restarts the wait for what is left; any other changes nothing |
| MicrochanMachine.SendNextLowersBacklog | microchan/src/microchan.c:510-605 | With a buffer of at least the MTU, every non-empty packet strictly lowers flags + unsent + queued unreliable + owed ack, so pulling packets ends |
| MicrochanMachine.PacketFitsIff | microchan/src/microchan.c:518-605 | No packet is longer than the MTU, and none is longer than the buffer offered, except exactly when a SYN or SYNACK is due and the buffer has 8 to 11 bytes |
| MicrochanMachine.SynOverruns | microchan/src/microchan.c:521-556 | A client that connects and offers 8 bytes is written 12 |
| MicrochanMachine.FitsIsLongest | microchan/src/microchan.c:563-576 | The number of messages packed is the longest run that fits: one more is packed exactly when it still fits |
| MicrochanMachine.DataPacketReads | microchan/src/microchan.c:561-604 | The peer reads out of a data packet exactly the records, ack and address packed into it |
| MicrochanMachine.RecordRoundTrip | microchan/src/microchan.c:475-488 | Parsing the encoded records gives the records back |
| MicrochanMachine.SeqAfterLogical | microchan/src/microchan.c:71-76 | The 16-bit comparison agrees with the order of the unbounded numbers exactly while they are less than half the space apart, and is reversed beyond it |
| MicrochanEndpoint.PackSlots | microchan/src/microchan.c:563-576 | The packing loop over the window slots packs the first messages that fit, in order |
| MicrochanEndpoint.Endpoint.Write | microchan/src/microchan.c:310-346 | On the struct with 16-bit cursors and eight slots: the write the transfer machine specifies, errors included |
| MicrochanEndpoint.Endpoint.Read | microchan/src/microchan.c:295-308 | The read of the transfer machine |
| MicrochanEndpoint.Endpoint.ProcessAck | microchan/src/microchan.c:360-374 | The slot-by-slot release loop equals dropping the acknowledged prefix of the window |
| MicrochanEndpoint.Endpoint.Deliver | microchan/src/microchan.c:376-403 | One record delivered into the rings as the machine specifies |
| MicrochanEndpoint.Endpoint.Feed | microchan/src/microchan.c:405-504 | Any packet bytes, control or data, fed as the machine specifies |
| MicrochanEndpoint.Endpoint.SendNext | microchan/src/microchan.c:510-605 | The packet and the state after sending are those of the machine |
| MicrochanEndpoint.Endpoint.Service | microchan/src/microchan.c:611-663 | Handshake retry, idle timeout, retransmission and keepalive as the machine specifies |
| NetchanSession.RunsReadInOrder | src/netchan.c:812-943 | RELIABLE channel, honest peer, fewer than 2^15 messages, any loss, repetition and reordering, any acks, other channels using the pool as they please: what is consumed is a prefix of what was written, read + queued is an ordered part of it without repeats, each read is a front part of its message, and the reorder window stays in order |
| NetchanLoss.RunsReadAllIff | src/netchan.c:812-943 | In every such run: what was read followed by what is queued is exactly what was consumed, if and only if no step so far fed the message wanted when there was no room for it and those waiting behind it |
| NetchanLoss.StepMisses | src/netchan.c:812-943 | The number of messages consumed and neither queued nor read rises at such a step and at no other |
| NetchanSession.StepKeepsInv | src/netchan.c:945-1658 | Each write, fragment, ack, retransmission, feed, read and foreign use of the pool keeps the two-party invariant |
| NetchanSession.RunsAccount | src/netchan.c:1603-1632 | In every such run bytes_in_flight is the total of the active slots |
| NetchanSession.EmitTrue | src/netchan.c:1373-1403 | A fragment put on the wire is the numbered fragment of the message written under its sequence number |
| NetchanHonest.HonestFrameKeepsTrue | src/netchan.c:866-943 | Feeding any fragment of any message, in any order and any number of times, keeps queue, reorder slots and assemblies byte-equal to what was written |
| NetchanHonest.CompleteIsMessage | src/netchan.c:893-911 | A complete assembly, compacted in place, is the original message |
| NetchanHonest.FinishTrue | src/netchan.c:903-937 | Finishing an assembly hands on exactly its message, in order or to the reorder window |
| NetchanWhole.AnyOrderYieldsIff | src/netchan.c:866-938 | In any state of an honest conversation in which the channel waits for message n and no assembly works on it: fed the fragments of n in any order with any repetition, it queues n and all that waited behind it, after what was queued, if and only if every fragment has come, an assembly could be had if one is needed, and there was room for all of them |
| NetchanWhole.AnyOrderOutcome | src/netchan.c:866-938 | And in full: with every fragment come and an assembly, n and what waited are consumed and exactly those that fit are queued; otherwise nothing is consumed or queued |
| NetchanWhole.FeedsUntilWhole | src/netchan.c:891-938 | From any state of partial reassembly of message n, whatever waits out of turn: it has its turn as soon as the last missing fragment comes, and before that nothing is consumed or queued |
| NetchanWhole.StaysArrived | src/netchan.c:893-938 | Once message n is delivered, further copies of its fragments, even a whole second set, leave it consumed and queued where it was |
| NetchanFrag.CompactionConcatenates | src/netchan.c:903-911 | The in-place memmove loop stays in its buffer and equals concatenation in index order whenever no fragment exceeds its share |
| NetchanFrag.OverrunIff | src/netchan.c:903-911 | With every fragment within the buffer where it was received, the loop moves a fragment past the end if and only if the fragments together are longer than the buffer |
| NetchanFrag.OverrunHappens | src/netchan.c:895-911 | At a share of 1185: fragments of 1400 and 863 bytes pass the length checks and end 215 bytes past a buffer of 2048 |
| NetchanFrag.FragsAreWhole | src/netchan.c:1382-1401 | The fragments of a message, in order, are the message, none longer than its share |
| NetchanFrag.TotalBounded | src/netchan.c:1617-1625 | With at least 64 bytes per fragment (mtu >= 79) a message needs at most 32, so the late TOOBIG path is not taken |
| NetchanRecv.DeliverRunKept | src/netchan.c:558-573 | Delivering what waited keeps every buffer accounted for and leaves only messages 1 to 63 ahead, each in the slot of its number |
| NetchanRecv.DeliverRunTrue | src/netchan.c:558-573 | Delivering what waited keeps the log an ordered part of what was written |
| NetchanRecv.StashKept | src/netchan.c:877-890 | A message ahead of its turn waits in the slot of its number, or nothing happens; the window invariant holds |
| NetchanRecv.EnqueueKept | src/netchan.c:536-556 | The message joins the end of the queue when the ring has a place, it is no longer than a buffer and one is free; otherwise nothing changes; no buffer is lost, shared or overwritten |
| NetchanDeliver.QueuedIff | src/netchan.c:536-556 | A message is queued if and only if the ring has a place, it is no longer than a buffer and one is free |
| NetchanDeliver.StashedIff | src/netchan.c:875-890 | A message out of turn waits, in the slot of its number, if and only if it is one of the 63 after the next one wanted, the slot is empty, it is no longer than a buffer and one is free |
| NetchanDeliver.DeliverRunQueues | src/netchan.c:558-573 | All n messages waiting without a gap are consumed; with no buffer free the first is lost, and of the others as many are queued as there are places, in order |
| NetchanDeliver.DeliverRunAllIff | src/netchan.c:558-573 | All n are queued if and only if n is 0, or a buffer is free and the ring has n places |
| NetchanDeliver.AcceptQueues | src/netchan.c:868-874 | A message in turn and those waiting behind it are consumed, and exactly those that fit are queued |
| NetchanDeliver.FrameQueues | src/netchan.c:866-938 | Any DATA frame on an ordered channel: if it completes the message wanted, that outcome; otherwise nothing is consumed or queued |
| NetchanData.FeedDataKept | src/netchan.c:812-943 | Any DATA frame that does not run past a buffer conserves buffers, writes in none that somebody else holds and keeps the channel in order |
| NetchanOverrun.FrameSpillsIff | src/netchan.c:836-938 | A DATA frame makes the receiver write past a buffer if and only if it is the last one an assembly lacked and the lengths together exceed 2048 |
| NetchanOverrun.ShareNeverOverfills | src/netchan.c:836-938 | It never does on a receiver that has only taken fragments no longer than the share, this one included |
| NetchanOverrun.TwoFramesSpill | src/netchan.c:891-911 | On any channel with no assembly at work and a free buffer, whatever its contents, two frames of 1400 and 863 bytes do it at the default mtu |
| NetchanData.FinishKept | src/netchan.c:903-937 | Compacting, handing on and freeing an assembly conserves buffers, unless compaction runs past the end |
| NetchanData.ClaimKept | src/netchan.c:579-609 | Finding or allocating an assembly conserves buffers and disturbs no other assembly |
| NetchanRead.DequeueKept | src/netchan.c:1636-1657 | A read returns the front of the oldest message, as much as fits, and returns its buffer |
| NetchanRead.CountKeptIff | src/netchan.c:1645-1654 | recv_buffered stays equal to the queued bytes if and only if the reader had room for the whole message |
| NetchanRead.CutReadMiscounts | src/netchan.c:1645-1654 | From the start: one message read with too little room leaves an empty queue and a count of what was cut off |
| NetchanRead.EnqueueCounted | src/netchan.c:536-556 | Queueing keeps recv_buffered equal to the queued bytes |
| NetchanPool.GetMoves | src/netchan.c:296-302 | Taking a buffer moves it from the free stack to the taker and to nobody else |
| NetchanPool.PutMoves | src/netchan.c:304-310 | Returning a buffer moves it back, once |
| NetchanSend.WriteKept | src/netchan.c:1585-1634 | A write adds exactly this message at the end of the ring, cut into the right number of fragments, or changes nothing; buffers conserved |
| NetchanSend.WriteAccounted | src/netchan.c:1627-1632 | A reliable write keeps bytes_in_flight equal to the active bytes |
| NetchanSend.WriteWithinWindow | src/netchan.c:1598-1602 | After a reliable write on an open channel the bytes in flight never exceed the window last advertised |
| NetchanSend.AckKept | src/netchan.c:945-980 | Any ack number frees exactly the active slots at or before it in 16-bit order, returns their buffers, advances the head past free slots, and leaves the byte count right if and only if it was |
| NetchanSend.WriteAccountedIff | src/netchan.c:1627-1632 | A write leaves the byte count right if and only if the channel is reliable or nothing was taken |
| NetchanSend.UncountedAckIff | src/netchan.c:959-971 | The count of an unreliable channel, 0 from the start, is still 0 after an ack if and only if the ack covers no message of the ring |
| NetchanSend.CountWraps | src/netchan.c:965-966 | An ack for an unreliable message of n bytes still in the ring leaves 2^32 - n |
| NetchanSend.EmitKept | src/netchan.c:1367-1419 | Sending a fragment, and freeing an unreliable message after its last, conserves buffers and the byte count |
| NetchanSend.ScanComplete | src/netchan.c:1268-1278 | When the scan finds nothing, no slot of the window has a fragment left to send |
| NetchanSend.RetransmitRearms | src/netchan.c:1488-1514 | The channel dies exactly when an overdue slot is out of attempts; otherwise every overdue slot, and no other, starts again from its first fragment |
| NetchanSend.RetransmitSame | src/netchan.c:1483-1515 | Retransmission changes only the progress, time and attempts of slots |
| NetchanWire.PacketSays | src/netchan.c:1280-1428 | A packet is the header, the control bytes that fit, then for every channel in order the number it owes and the room it has, if those notes went out, and then the next unsent fragment of each channel whose ring moved; nothing else changes |
| NetchanWire.HeaderSays | src/netchan.c:1314-1328 | The header names a connecting client itself, and otherwise the peer and the packet, numbered one higher each time in 16 bits |
| NetchanWire.PacketIsTaken | src/netchan.c:1008-1258 | Fed to the connection it is addressed to, it has there exactly the effect of its control frames, if they are read, and then of each of these in order on the channel of the same id |
| NetchanWire.MisdirectedIsRefused | src/netchan.c:1214-1258 | A packet too short for its header or addressed to somebody else changes nothing |
| NetchanWire.FramesApply | src/netchan.c:812-1066 | Encoded ACK, WINDOW and DATA frames are read back and applied one after the other, whatever follows them |
| NetchanWire.FramesConcat | src/netchan.c:1008-1066 | Frames read in full have the same effect whatever follows them |
| NetchanRelease.PacketsOwe | src/netchan.c:940-1366 | After any calls and packets, every ACK in the next packet is recv_seq - 1 (0 at 0) of the receiving channel under its own id |
| NetchanRelease.ReadOwesWindow | src/netchan.c:1636-1660 | Taking a message off the queue, and nothing else a reader does, makes a window update due |
| NetchanRelease.RunsKeepUnconsumed | src/netchan.c:940-980 | If every ack that reaches the sender was owed at some earlier point with recv_seq above 0, then in every state of the run each message not yet consumed is still in the sender ring |
| NetchanLink.HandshakeConnects | src/netchan.c:1177-1200 | INIT and ACCEPT bring both ends up, each with the other id |
| NetchanLink.HandshakeRefuses | src/netchan.c:624-660 | INIT is refused by clients and of another version, ACCEPT by servers; a second INIT only renews the name of the peer |
| NetchanLink.OpenToSend | src/netchan.c:1524-1552 | A channel opened to send is, after OPEN and the WINDOW that answers it, open at both ends in opposite directions and of one kind, with the sender window the limit of the receiver |
| NetchanLink.OpenToReceive | src/netchan.c:1524-1552 | So is one opened to receive, after OPEN and the WINDOW behind it |
| NetchanLink.OpenIsRefused | src/netchan.c:752-795 | An id in use or no slot left at the peer: the CLOSE that comes back marks the channel dead |
| NetchanLink.CloseReachesPeer | src/netchan.c:1553-1560 | Closing marks the channel closing here and dead at the peer, once |
| NetchanLink.DisconnectEnds | src/netchan.c:1119-1142 | Hanging up ends the session at the other end |
| NetchanLink.PingIsAnswered | src/netchan.c:724-735 | A ping is answered with its own four bytes |
| NetchanLink.IdsKeepParity | src/netchan.c:1524-1552 | Channel ids go on by two, so the two ends never choose the same |
| NetchanLink.KindMatters | src/netchan.c:940-945 | Of the kind codes, 1 is not acknowledged and only 0 is held to the window and sent again |
| NetchanLink.NewChannelIsSilent | src/netchan.c:479-511 | A new channel has nothing to send, nothing to read and owes nothing |
| NetchanLink.TimeoutDoubles | src/netchan.c:1494-1495 | The wait for an ack doubles with each attempt up to a second, while the doubled number fits 32 bits |
| NetchanLink.DiesIff | src/netchan.c:1483-1506 | The service routine gives a channel up exactly when it is a reliable sender and a message of its ring is overdue after five attempts |
| NetchanLink.GivesUpAfterFive | src/netchan.c:1480-1515 | A message overdue time after time is tried five times in all, and the channel is dead at the next deadline at the latest |
| NetchanLink.EmitStartsWait | src/netchan.c:1402-1409 | A reliable fragment that goes out starts the wait of its slot afresh and is a first attempt only if none was counted; sent at time 0 it is never overdue |
| NetchanLink.WriteOutcome | src/netchan.c:1585-1634 | A write is refused for exactly one reason with nothing changed, or taken whole |
| NetchanLink.WriteReaches | src/netchan.c:1585-1634 | A write goes to the channel of its id if that sends; its outcome is that of the ring and only the ring changes |
| NetchanLink.ReadReaches | src/netchan.c:1636-1660 | A read takes from the channel of its id, if that receives, the oldest message of its queue, or as much of it as there is room for |
| NetchanLink.AckReaches | src/netchan.c:945-980 | An ACK frame releases in the channel of its id exactly the messages at or before the number, and touches nothing else |
| NetchanLink.DataReaches | src/netchan.c:812-943 | A DATA frame with the whole message wanted queues it on the channel of its id, if there is room, and makes an acknowledgement of it due |
| NetchanLink.ServiceReachesAll | src/netchan.c:1480-1515 | The service routine does for every channel what it does for one, once |
| NetchanLink.CallsOutOfTurn | src/netchan.c:1119-1552 | Connect, accept, disconnect and open do nothing in the wrong state or by the wrong side |
| NetchanLink.OpenWithoutSlot | src/netchan.c:1524-1552 | With every slot taken, opening a channel spends the id and does nothing else |
| NetchanAck.ConsumedQueuedIff | src/netchan.c:866-943 | What one DATA frame does on an acknowledging channel: completing the message wanted makes it and the n waiting behind it consumed, so acknowledged; they are all queued if and only if the ring has 1 + n places, the message is no longer than a buffer, and one buffer is free, two if any waited; if not, exactly those that fit are |
| NetchanAck.AckMeansConsumedIff | src/netchan.c:940-966 | The number owed covers the 2^15 numbers consumed last, and of those not consumed none, if and only if recv_seq is not 0 |
| NetchanAck.OwedCovers | src/netchan.c:940-966 | At recv_seq 0 the one number covered too early is 0, the next one wanted |
| NetchanAck.AckBeforeDelivery | src/netchan.c:940-942 | A receiver that gets message 1 first acknowledges message 0 |
| NetchanAck.AckAfterWrap | src/netchan.c:940-942 | One that consumes message 65535 acknowledges the next message, numbered 0, unseen |
| NetchanAck.FullRingLoses | src/netchan.c:869-874 | At a full ring a message in turn is acknowledged and gone |
| NetchanAck.EmptyPoolLoses | src/netchan.c:869-874 | So it is with no buffer free |
| NetchanAck.SixtyFourthLost | src/netchan.c:866-943 | From the start: a new channel with the whole pool, sent 64 messages in order and not read, acknowledges all 64 and holds the first 63 |
| NetchanAck.UnreliableCountWraps | src/netchan.c:959-971 | From the start: a new unreliable channel that takes n bytes and gets an ack counts 2^32 - n in flight |
| NetchanConn.ChanStepKeeps | src/netchan.c:288-316 | Whatever one channel does, all 64 buffers stay partitioned between the free stack and the slots of all channels |
| NetchanConn.ChanDataKept | src/netchan.c:812-943 | A DATA frame keeps its channel in order and its buffers conserved; it runs past a buffer exactly when it overfills an assembly |
| NetchanConn.ChanStepApart | src/netchan.c:288-316 | A channel operation that stays within its buffers, as every one but an overfilling DATA frame does, writes into no buffer another channel holds |
| NetchanConn.CloseReturnsAll | src/netchan.c:513-534 | Closing the connection returns all 64 buffers, each once |
| NetchanConn.AddChanKeeps | src/netchan.c:479-511 | Opening a channel keeps the tables consistent and the pool partitioned |
| NetchanFeed.FeedKeeps | src/netchan.c:1214-1258 | Any bytes at all fed to a connection leave the pool partitioned and every channel in order, unless a frame among them overfilled an assembly |
| NetchanFeed.FrameKeeps | src/netchan.c:1016-1056 | Each kind of frame, malformed ones included, keeps that; a DATA frame that overfills an assembly, and nothing else, runs past a buffer |
| NetchanFeed.DataReadsBack | src/netchan.c:812-828 | A DATA frame encoded by the sender is read back whole, whatever follows it |
| NetchanOutput.SendNextLowersWork | src/netchan.c:1280-1428 | With room for the mtu (>= 79), a packet comes back exactly when something is due, and each lowers queued control bytes + owed acks and updates + unsent fragments |
| NetchanOutput.PacketFits | src/netchan.c:1327-1428 | No packet is longer than the mtu or the buffer offered for it |
| NetchanOutput.SendKeeps | src/netchan.c:1280-1428 | Building a packet for any buffer size keeps the pool partitioned |
| NetchanApi.PoolStaysPartitioned | src/netchan.c:1105-1658 | After any sequence of API calls and packets from netchan_open, none of which overfilled an assembly: the partition, the in-flight byte count of every RELIABLE sender, and close returning all 64 |
| NetchanGuard.GuardedRunsNeverSpill | src/netchan.c:1105-1658 | From netchan_open, after any calls and any packets whose DATA fragments are no longer than the share, no write has left its buffer and the pool is partitioned |
| NetchanGuard.PacketShares | src/netchan.c:455-462 | A caller can check that by length: a packet no longer than the mtu, or than the mtu less 2 behind the short header, carries no longer fragment |
| NetchanApi.OthersAreElsewhere | src/netchan.c:288-316 | What one channel does within its buffers is, to the others, one of the pool changes the two-party runs allow |
| NetchanApi.DataLeavesOthers | src/netchan.c:812-943 | So is every DATA frame that does not overfill an assembly |
| NetchanObject.DeliverReordered | src/netchan.c:558-573 | The delivery loop computes the specified run |
| NetchanObject.Compact | src/netchan.c:903-911 | The compaction loop computes the specified compaction, and reports the first move past the end |
| NetchanObject.TakePiece | src/netchan.c:891-938 | Reassembly step by step equals its specification |
| NetchanObject.ReleaseCovered | src/netchan.c:959-971 | The ack loop frees what the specification frees |
| NetchanObject.ScanSendable | src/netchan.c:1268-1278 | The scan returns the first sendable slot |
| NetchanObject.Rearm | src/netchan.c:1488-1514 | The retransmit loop as specified, stopping at a dead channel |
| NetchanObject.Connection.constructor | src/netchan.c:1105-1117 | A new connection: pool whole and free, no channels |
| NetchanObject.Connection.ProcessData | src/netchan.c:812-943 | A DATA frame changes the connection as specified, keeps the partition unless it overfills an assembly, and is known to have left its buffer exactly then |
| NetchanObject.Connection.ProcessAck | src/netchan.c:945-980 | An ACK frame changes the connection as specified and keeps the partition |
| NetchanObject.Connection.ProcessOpen | src/netchan.c:752-794 | A channel opened by the peer, or refused |
| NetchanObject.Connection.ProcessFrame | src/netchan.c:1016-1056 | One frame of any kind: its length, or a protocol error with nothing changed |
| NetchanObject.Connection.Feed | src/netchan.c:1214-1258 | A packet frame by frame, what came before an error staying done, up to a write outside its buffer |
| NetchanObject.Connection.SendNext | src/netchan.c:1280-1428 | The packet bytes and new state are those specified |
| NetchanObject.Connection.SendAll | src/netchan.c:1280-1428 | Asking for packets until none comes ends, after at most the measured number of packets, with nothing due |
| NetchanObject.Connection.Service | src/netchan.c:1483-1515 | The retransmit pass over all channels |
| NetchanObject.Connection.Write | src/netchan.c:1585-1634 | A write on a channel, with its outcome |
| NetchanObject.Connection.Read | src/netchan.c:1636-1657 | A read on a channel |
| NetchanObject.Connection.OpenChannel | src/netchan.c:1524-1551 | Opening a channel; the id is spent even when no slot is left |
| NetchanObject.Connection.Close | src/netchan.c:1143-1157 | After closing, the free stack holds every buffer once |
| ThorRegion.KeepLargestRegion | microchan/examples/thor/game.c:68-128 | For any grid, what stays open is exactly one largest 4-connected component of the interior floor, or nothing when there is none |
| ThorRegion.Flood | microchan/examples/thor/game.c:82-100 | The explicit-stack fill marks exactly the component of its start and counts it; the stack never outgrows the cell count and the fill ends |
| ThorRegion.RoomToPush | microchan/examples/thor/game.c:90-99 | While an unmarked cell of the component remains, the stack has room for it |
| ThorRegion.FindLargest | microchan/examples/thor/game.c:74-103 | The scan finds a start cell of a largest component |
| ThorRegion.AdjIsOneStep | microchan/examples/thor/game.c:90-97 | Neighbouring cells are those one step apart in x or y |
| ThorRegion.WallOff | microchan/examples/thor/game.c:104-128 | Everything outside the kept region becomes wall, the rest is unchanged |
| ThorMap.KeptIsOnePiece | microchan/examples/thor/game.c:68-128 | Any two open tiles of a kept map are joined by a 4-connected open path |
| ThorMap.GenMap | microchan/examples/thor/game.c:130-156 | For any rolls of the generator: the map is the rolled one, smoothed four times and cut down to a largest component; it is in one piece |
| ThorMap.Smooth | microchan/examples/thor/game.c:140-152 | Each smoothing pass turns every interior tile to wall or floor by its eight neighbours as they were before the pass |
| ThorMap.RandomFloor | microchan/examples/thor/game.c:158-172 | The place found is the first of up to 4000 draws that is plain floor; none is found exactly when no draw is |
| ThorLaws.PlayersWalk | microchan/examples/thor/game.c:254-280 | After the players move: each live one stands one tile on in its input direction if that tile is open, and where it was otherwise; it faces the direction; nobody else has moved |
| ThorLaws.PlayersFire | microchan/examples/thor/game.c:281-296 | Who fires: each live player told to, whose wait is over, in order, as long as a slot is free; into a slot that was free, from where it has walked to; waits become 2 or one less; no shot in flight is touched |
| ThorLaws.TreasureIsTaken | microchan/examples/thor/game.c:267-280 | A player that steps onto treasure gains 25 points and leaves floor; any other turn changes neither map nor score |
| ThorLaws.NoTreasureNoChange | microchan/examples/thor/game.c:267-280 | On a map without treasure, as generated maps are, none of this ever happens |
| ThorLaws.ShotFlies | microchan/examples/thor/game.c:310-342 | One shot, in full: two tiles straight on, one if its range ends there; it ends before a wall, on a creature, which dies for ten points to the owner, and at the end of its range |
| ThorLaws.ShotsFly | microchan/examples/thor/game.c:310-342 | After the shots move: each live one has gone exactly as far as nothing was in its way; creatures only die and players only score |
| ThorLaws.KillsArePaid | microchan/examples/thor/game.c:310-342 | The points gained in the phase, over all players, are ten for each creature it killed |
| ThorLaws.CreaturesAct | microchan/examples/thor/game.c:344-390 | Each creature acts once, in order: next to the nearest live player (the first of several) it strikes that one for a point, and otherwise it moves towards it; players keep their places |
| ThorLaws.OnlyPlayerIsStruck | microchan/examples/thor/game.c:344-390 | The only player alive loses exactly as many points as live creatures stand around it, and is dead and waiting if that is all it has |
| ThorLaws.PulledSlides | microchan/examples/thor/game.c:372-389 | A creature takes the diagonal if it is free, else sideways, else up or down, and stays exactly when none is free |
| ThorLaws.PulledComesNearer | microchan/examples/thor/game.c:372-376 | With the tile towards the player free, a creature ends one king move nearer |
| ThorLaws.TheDeadReturn | microchan/examples/thor/game.c:392-407 | A waiting player counts down and at zero stands up with full health on the first plain floor drawn, if any is; nobody else changes |
| ThorTicks.TickFares | microchan/examples/thor/game.c:254-417 | What a whole tick does to each player: a live one ends one tile on if that is open, is hurt only on even ticks, and if it dies waits 24 ticks, this one counted; a waiting one counts down and returns |
| ThorTicks.TickFlies | microchan/examples/thor/game.c:254-417 | What a whole tick does to each shot, those fired in it included |
| ThorTicks.TickCreatures | microchan/examples/thor/game.c:344-417 | On even ticks every creature acts once, on the world as players and shots leave it; on odd ticks none; the counter goes on by one in 16 bits |
| ThorTicks.TickStrikes | microchan/examples/thor/game.c:344-417 | On an even tick the only player alive loses as many points as creatures the shots have left around where it has walked to |
| ThorTicks.TickKeeps | microchan/examples/thor/game.c:254-417 | A tick keeps everybody alive on the floor with 1 to 10 health, and creatures that stood apart stay apart |
| ThorTicks.ReturnsOnTime | microchan/examples/thor/game.c:392-417 | Over many ticks: a player waiting n ticks is dead until the nth and alive then if floor is drawn for it |
| ThorTicks.FliesItsRange | microchan/examples/thor/game.c:310-417 | Over many ticks: unobstructed, a shot flies two tiles a tick and ends on the tile one past the number it carries |
| ThorTicks.ShotReachesSeventh | microchan/examples/thor/game.c:281-342 | So a fired shot reaches the seventh tile; microchan/examples/thor/game.h:22 says six |
| ThorWorld.World.Play | microchan/examples/thor/game.c:178-417 | Over any sequence of joins, inputs and ticks: every live player, creature and shot stands on an open tile, players have 1 to 10 health, and creatures on different tiles stay on different tiles |
| ThorWorld.World.Together | microchan/examples/thor/game.c:158-172 | In every such state any two live players, and any live creature and player, stand on tiles joined by an open path |
| ThorWorld.World.GameTick | microchan/examples/thor/game.c:409-417 | On the tables in place: exactly players, shots, creatures, respawns, in this order, and what TickFares says of each player |
| ThorWorld.World.constructor | microchan/examples/thor/game.c:178-196 | A new world is the generated map with a creature wherever a draw found floor, and nothing else |
| ThorWorld.World.AddOne | microchan/examples/thor/game.c:198-218 | A new player takes the first slot nobody lives in, has health in or waits in, on the first plain floor drawn, or nobody changes |
| ThorWorld.World.StepPlayers | microchan/examples/thor/game.c:254-296 | The loop over the players is their turns in order |
| ThorWorld.World.StepShots | microchan/examples/thor/game.c:310-342 | The loop over the shots, with its inner loop, is their turns in order |
| ThorWorld.World.StepCreatures | microchan/examples/thor/game.c:344-390 | The loop over the creatures is their turns in order, on even ticks |
| ThorWorld.World.StepRespawns | microchan/examples/thor/game.c:392-407 | The loop over the waiting is their turns in order |
| ThorWorld.NearestPlayer | microchan/examples/thor/game.c:231-252 | The scan finds the first of the live players nearest by king moves, or none exactly when nobody lives |
| ThorWorld.MoveCreature | microchan/examples/thor/game.c:371-389 | The direction looked up in the tables and the three tries give the move the laws speak of |
| ThorWorld.CreatureAt | microchan/examples/thor/game.c:298-308 | The first live creature on the tile, or none exactly when it is vacant |
| CryptoReplay.CheckRefines | crypto/nc_crypto.c:312-335 | A counter is accepted if and only if it is nonzero, never accepted before, and above the highest or fewer than 64 below it; the shifted mask goes on standing for the set of accepted counters |
| CryptoReplay.NeverTwice | crypto/nc_crypto.c:312-335 | Whatever arrives in whatever order, no counter is accepted twice |
| CryptoReplay.ShiftedBit | crypto/nc_crypto.c:319-325 | After moving up, bit d of the 64-bit mask speaks of the counter d below the new highest |
| CryptoSession.RunsOpenOnce | crypto/nc_crypto.c:285-408 | With an ideal cipher, in every run from two fresh ends against an attacker who presents any datagram and any HELLO to either end at any time: the counters sealed under are strictly increasing, and each sealed datagram opens at most once, under its counter, to exactly its text |
| CryptoSession.EachOpensOnce | crypto/nc_crypto.c:285-408 | The same invariant over every run from any state that has it |
| CryptoSession.ForgeryVanishes | crypto/nc_crypto.c:381-408 | Taking a datagram that fails authentication out of a run, wherever it is, does not change where the run ends |
| CryptoSession.StepKeeps | crypto/nc_crypto.c:285-408 | Each seal, presented datagram and HELLO keeps that, and the counter a seal spends is one nothing was sealed under |
| CryptoSession.ForgeryLeavesNoTrace | crypto/nc_crypto.c:396-398 | Definition unfolded, for ForgeryVanishes: one open that fails authentication returns the end as it was |
| CryptoSession.PeersAgree | crypto/nc_crypto.c:157-218 | For every mix of identity keys, with equal psk and commuting exchange: ends that accept each other hold crossed keys and equal session ids; each is ready exactly when it approved its peer and the exchange is not degenerate |
| CryptoSession.SameTranscript | crypto/nc_crypto.c:126-218 | Both ends hash the same transcript from opposite halves |
| CryptoSession.InputIsInjective | crypto/nc_crypto.c:126-155 | What derive_out hashes determines all three exchange results, both ephemeral keys, both identity keys, the pre-shared key and the label |
| CryptoSession.AgreementMeansSame | crypto/nc_crypto.c:126-218 | An initiator and a responder that derive keys from whatever HELLOs reached them hold crossed keys, or one session id, only if every part of what they hash is the same, unless the hash collides on it |
| CryptoSession.SameMeans | crypto/nc_crypto.c:157-218 | Which is: one pre-shared key, each identity as claimed, the same two ephemeral keys, and for each identity in play the exchange the other side computed |
| CryptoSession.PskMustMatch | crypto/nc_crypto.c:126-218 | Ends with different pre-shared keys that open each other HELLOs share no key and no session id, unless the hash collides |
| CryptoSession.OwnKeysApart | crypto/nc_crypto.c:157-200 | The two traffic keys and the session id of one end are three different values, unless the hash collides on their labels |
| CryptoSession.HandsUpIff | crypto/nc_crypto.c:361-408 | A presented datagram is handed up if and only if it fits, was sealed under the matching key and counter, and the counter was not handed up before and is above the highest or fewer than 64 below it |
| CryptoSession.SealedOpens | crypto/nc_crypto.c:285-408 | What is sealed next is opened to its text by a receiver that holds the matching key |
| CryptoSession.OpenAnswers | crypto/nc_crypto.c:361-408 | Nothing is handed up and nothing refused exactly for a HELLO to an end that has not failed; a refusal changes nothing; a text comes only from an authentic DATA packet that fits |
| CryptoSession.SealsIff | crypto/nc_crypto.c:285-309 | A packet is sealed exactly when there are keys, room for text and overhead and a counter left, and then under the next counter |
| CryptoSession.VerdictIsFinal | crypto/nc_crypto.c:338-379 | In every run ready and failed exclude each other, keys never change once set, and failure is permanent |
| CryptoSession.Crypto.ReplayCheck | crypto/nc_crypto.c:312-335 | The check on the struct fields is the specified one |
| CryptoSession.Crypto.OpenPacket | crypto/nc_crypto.c:361-408 | Opening on the struct fields is the specified step |
| CryptoSession.Crypto.SealPacket | crypto/nc_crypto.c:285-309 | Sealing spends the next counter and never wraps it |
| AuthServer.OkWasEarned | auth/nc_auth.c:289-388 | Over every sequence of messages, answers and teardowns, a server in OK got there at one step, with nothing cleared since and the same session and name: by a signature that checks out on the digest of its session id, its name and the key, with check_key true of that name and key; by check_password true of that name and password; or by DONE of an INTERACTIVE method that the peer began while it was on offer |
| AuthServer.AdmittedExactlyBy | auth/nc_auth.c:289-367 | A deciding server becomes OK, and says so, exactly by such a step; never by a finished registration; the step changes neither name nor session |
| AuthServer.SignatureIsBound | auth/nc_auth.c:18-33 | A signature accepted in two sessions was made for the same session id and the same name, unless the hash collides on the two inputs or the signature is one on two digests |
| AuthServer.InputIsInjective | auth/nc_auth.c:18-33 | What is hashed determines the session id, the name up to 64 bytes and the key |
| AuthServer.RunningWasBegun | auth/nc_auth_ia.c:1061-1112 | In every run a running method was begun by the peer while it was on offer, and nothing was cleared since |
| AuthServer.MethodsAccounted | auth/nc_auth_ia.c:945-1153 | In every run: begun = cancelled + completed + refused + running, and a greeted deciding server has something on offer and fewer than six tries |
| AuthServer.StepKeepsOk | auth/nc_auth_ia.c:1001-1153 | Each message, resumed wait and teardown keeps that |
| AuthServer.AtMostSixFails | auth/nc_auth.c:263-272 | No conversation sees more than six FAILs, and tries counts them |
| AuthServer.SaysOkIff | auth/nc_auth.c:289-388 | OK is said exactly when the server becomes OK |
| AuthServer.DecidedForGood | auth/nc_auth.c:369-388 | A server that has decided says nothing more and changes nothing, whatever is fed to it until teardown |
| AuthServer.Auth.Settle | auth/nc_auth_ia.c:1001-1049 | The verdict step on the struct fields |
| AuthServer.Auth.HandleMsg | auth/nc_auth.c:289-367 | The message step on the struct fields, protocol errors included |
| AuthServer.Auth.FeedMsg | auth/nc_auth.c:369-388 | A protocol error denies |
| AuthServer.Auth.ResumeWait | auth/nc_auth_ia.c:1051-1059 | Resolving a wait on the struct fields |
| AuthServer.Auth.EndMethod | auth/nc_auth_ia.c:945-954 | The cancellation notice is given at most once |
| AuthServer.Auth.Wipe | auth/nc_auth_ia.c:1146-1153 | Teardown ends a running method first; then the object is set up for a new session |
| AuthSession.LoginIsMutual | auth/nc_auth.c:35-388 | From the start, with messages arriving in order: in every run a client in OK faces a server in OK for the name the client was set up with |
| AuthSession.ClientOkMeansServerOk | auth/nc_auth.c:200-388 | The same from every state that has the two-party invariant |
| AuthSession.KeyLoginSucceeds | auth/nc_auth.c:149-172 | Definition unfolded, beside KeyLoginElsewhereFails: the key message of a client in the same session, with a key authorised for its name, is accepted if keys are on offer |
| AuthSession.KeyLoginElsewhereFails | auth/nc_auth.c:322-334 | The same message does not let anyone in on a server of another session, unless the hash collides or the signature is one on two digests |
| AuthSession.NeverSilent | auth/nc_auth.c:112-141 | After an offer the client is denied, asks its application for something, or has begun an interactive method |
| AuthSession.PlayKeeps | auth/nc_auth.c:78-388 | Each call and each message keeps the two-party invariant |
| AuthLogin.PasswordLogin | auth/nc_auth.c:172-199 | Client and server, greeted and with a password asked for: after the call, the message and the reply both are in OK exactly when the application accepts that password for that name; otherwise the client is denied and the server has nothing left that it could ask for |
| AuthLogin.KeyThenPassword | auth/nc_auth.c:149-172 | The same for a key in one session: OK at both ends exactly when the key is known for the name; otherwise the password is asked for if it is on offer, and denial follows if not |
| AuthLogin.FormShown | auth/nc_auth_ia.c:757-935 | A method of forms chosen from the offer runs at both ends and shows its form to the player |
| AuthLogin.FormAnswered | auth/nc_auth_ia.c:817-935 | Its answers lead to the next form, to a refusal with the method spent, or to the end: an interactive login admits both ends, a registration leaves an account and the methods offered next |
| AuthLogin.Opening | auth/nc_auth.c:78-141 | From the start, the greeting and the offer leave the client asking for exactly what comes first and the server waiting with the methods it offered |
| AuthLogin.PasswordDecides | auth/nc_auth.c:172-199 | The password a client is supplied is the one the server checks, with the name it was greeted by: it admits, or passwords are spent and the try is counted |
| AuthLogin.KeyDecides | auth/nc_auth.c:149-172 | So does a key of the same session |
| AuthLogin.ChoiceBegins | auth/nc_auth_ia.c:757-815 | A choice begins that method at the server, registration before login, and its first verdict settles it; a resumption token not taken refuses it |
| AuthLogin.SubmissionReaches | auth/nc_auth_ia.c:817-838 | A submission reaches the running method, and the verdict settles it |
| AuthLogin.GivingUpCancels | auth/nc_auth_ia.c:840-858 | Giving up, or submitting nothing, cancels the method: the application is told once and the methods are offered afresh |
| AuthLogin.ReplyAsksNext | auth/nc_auth.c:112-141 | An offer or a FAIL leads to exactly one thing asked next: the choice of a method of forms, else the key, else the password, else denial |
| AuthLogin.FormAsks | auth/nc_auth_ia.c:860-935 | A form puts the client in need of answers while its method runs and is not being given up; unasked or malformed it ends the login |
| AuthLogin.EarlyChoice | auth/nc_auth_ia.c:757-815 | A choice made before it is asked for has the same outcome as one made when asked |
| AuthLogin.WithoutCredential | auth/nc_auth.c:112-199 | A key or password the player does not have, or one too long, is passed over for the next |
| AuthLogin.OutOfPlace | auth/nc_auth.c:149-199 | A credential or form that was not asked for, or a second cancel, does nothing; answers that cannot be encoded end the login |
| AuthLogin.OutOfTurnEnds | auth/nc_auth.c:289-388 | A message out of turn or malformed ends the login without a word; every other is answered by exactly one reply |
| AuthLogin.NotOnOffer | auth/nc_auth.c:289-367 | A method not on offer is refused: it costs a try and spends nothing |
| AuthLogin.NameIsWhole | auth/nc_auth.c:35-50 | A name of at most 64 bytes is taken whole and a longer one cut off there |
| AuthLogin.ChoosesNoQuestion | auth/nc_auth_ia.c:775-815 | A player who wants none of the methods of forms logs in with key or password |
| AuthLogin.ChoosesNothing | auth/nc_auth_ia.c:775-815 | One who wants nothing is denied; one who wants what is not on offer is asked again |
| AuthText.FmtParses | auth/nc_auth_ia.c:92-136 | Printing and parsing decimal are inverse for every int32 except INT32_MIN, which overflows while read |
| AuthText.ParsesIff | auth/nc_auth_ia.c:112-138 | A string is read as a number exactly when it is digits that fit 32 bits, at least one, behind a minus or not; and as that number |
| AuthText.FmtInt | auth/nc_auth_ia.c:92-111 | The digit loop prints the specified text |
| AuthText.ParseInt | auth/nc_auth_ia.c:116-136 | The parse loop reads the specified number |
| AuthForm.ReadBack | auth/nc_auth_ia.c:142-150 | Definition unfolded, for DecodeInvertsEncode: a record string is read as the key and value it was written with, and as no other key |
| AuthCodec.DecodeInvertsEncode | auth/nc_auth_ia.c:284-512 | Every form that encodes decodes to its normal form exactly when the receiving buffer has room, and is refused otherwise |
| AuthCodec.EncodeIff | auth/nc_auth_ia.c:284-365 | A form is encoded exactly when it has at most 24 fields of known types and takes at most 2000 bytes |
| AuthCodec.FitsBounds | auth/nc_auth_ia.c:231-243 | The check on the receiving buffer passes only if strings and arrays together fit it, and passes if they do with what aligning three arrays can take |
| AuthCodec.DecodedFits | auth/nc_auth_ia.c:381-516 | Of any message at all: what decodes has room for title and note with their ends and for every field, and there are at most 24 fields and 255 errors |
| AuthCodec.UnpackedSize | auth/nc_auth_ia.c:245-272 | The strings of a run, with a NUL each, take one byte less than with their lengths before them |
| AuthCodec.CountBoundsFill | auth/nc_auth_ia.c:367-379 | For any strings, the filling pass writes no more fields, errors or options than the counting pass made room for |
| AuthCodec.CountPrefix | auth/nc_auth_ia.c:367-379 | And so at every string along the way |
| AuthCodec.FieldRead | auth/nc_auth_ia.c:453-503 | The records of one field are read back as its normal form |
| AuthCodec.SinkUnpacks | auth/nc_auth_ia.c:163-270 | What was packed without overflow unpacks to the same strings |
| AuthCodec.PackRecords | auth/nc_auth_ia.c:163-183 | The packing loop |
| AuthCodec.UnpackRun | auth/nc_auth_ia.c:249-270 | The unpacking loop, refusing what runs past the end |
| AuthCodec.SplitMessage | auth/nc_auth_ia.c:396-431 | The tag loop, skipping unknown fields |
| AuthCodec.FillRecords | auth/nc_auth_ia.c:453-503 | The filling loop, within the counts |
| AuthFramer.ChunkingIndependence | auth/nc_auth_ia.c:1183-1220 | For any stream and any split into pushes interleaved with nexts, the messages handed out are those of parsing the stream at once |
| AuthFramer.FramedComesBack | auth/nc_auth_ia.c:1159-1220 | Framing a list of messages and pushing the bytes in any pieces hands the same list back |
| AuthFramer.PushIff | auth/nc_auth_ia.c:1193-1203 | Bytes pushed are taken, behind those waiting, exactly when there is room for all of them |
| AuthFramer.NeverStuck | auth/nc_auth_ia.c:1193-1220 | With a buffer for the longest frame, one more byte can be pushed whenever no message is there to hand out |
| AuthFramer.FramedParse | auth/nc_auth_ia.c:1159-1170 | Parsing undoes framing and goes on with what follows |
| AuthFramer.FrameIntoIff | auth/nc_auth_ia.c:1159-1170 | A message is framed exactly when some bytes that fit the room would be read as it, and into those bytes; otherwise it is refused |
| AuthFramer.Buffer.Compact | auth/nc_auth_ia.c:1183-1191 | The deferred memmove keeps what is waiting |
| AuthFramer.Buffer.PushBytes | auth/nc_auth_ia.c:1193-1202 | Bytes are appended if they fit |
| AuthFramer.Buffer.NextMessage | auth/nc_auth_ia.c:1204-1220 | The next message, still in the buffer until the following call |
| PqHeap.EnqueuedHeap | examples/iox/pq.h:204-214 | Enqueue keeps heap order and adds exactly the one entry |
| PqHeap.RemovedHeap | examples/iox/pq.h:222-244 | Remove at any index keeps heap order and takes away exactly that entry |
| PqHeap.DrainSorts | examples/iox/pq.h:216-244 | Repeated dequeue yields all entries in nondecreasing key order |
| PqHeap.SiftUpHeap | examples/iox/pq.h:131-139 | Moving the hole up and writing the element last restores heap order |
| PqHeap.SiftDownHeap | examples/iox/pq.h:143-164 | Moving the hole down and writing the element last restores heap order |
| PqHeap.Queue.Enqueue | examples/iox/pq.h:204-214 | On the array, full queue included |
| PqHeap.Queue.Remove | examples/iox/pq.h:222-244 | On the array, bad index included |
| PqHeap.Queue.Dequeue | examples/iox/pq.h:216-219 | Returns an entry of least key |
| PqHeap.Queue.SiftHoleUp | examples/iox/pq.h:131-139 | The array loop computes the specified sift |
| PqHeap.Queue.SiftHoleDown | examples/iox/pq.h:143-164 | The array loop computes the specified sift |
| Beacon.BuildParses | discovery/nc_beacon.c:73-230 | Parsing a built beacon gives it back, up to bytes past the end of a text and an unset key |
| Beacon.ForeignIsRefused | discovery/nc_beacon.c:56-71 | Only an announcement behind the magic number, of a size that can be one, is read |
| Beacon.FieldTakenIff | discovery/nc_beacon.c:137-230 | A name or contact is taken up to 64 bytes and a key of exactly 32 |
| Beacon.PacketBounded | discovery/nc_beacon.c:73-121 | A beacon takes at most 212 bytes |
| Beacon.UnknownFieldSkipped | discovery/nc_beacon.c:148-230 | Any well-formed unknown field at any field boundary within 512 bytes leaves the parse unchanged |
| Beacon.Build | discovery/nc_beacon.c:73-121 | The buffer holds the packet, or -1 exactly when it does not fit |
| Beacon.Parse | discovery/nc_beacon.c:148-230 | The parsing loop reads what is specified |
| Beacon.BoundedLen | discovery/nc_beacon.c:36-44 | The length up to the NUL or the array size |
| Microser.SkipStopsWithReaders | idl/microser.h:133-276 | Definitions compared: skipping a field stops where the reader of its type would and fails when that would; only the reader of length-prefixed fields also refuses one longer than its limit |
| Microser.SkipTakesExtent | idl/microser.h:255-276 | Definitions compared, for the codec and beacon lemmas: skipping takes the extent the codec and beacon lemmas speak of |
| Microser.ReadersSee | idl/microser.h:133-245 | Definitions compared, for the codec and beacon lemmas: and the readers find the values those lemmas speak of |
| Microser.ReadU64 | idl/microser.h:205-217 | The byte loop reads the little-endian number |
| Microser.ExtentStable | idl/microser.h:255-276 | Where a field ends does not depend on what follows it |
| Microser.PayloadBack | idl/microser.h:118-131 | A length-prefixed field is read back whole |

## Left out

- Event queues, statistics, RTT and ping timing, peer addresses, redirect handling and
  migration of netchan and microchan: they feed no modelled decision.
- Connection retry, idle timeout and keepalive of netchan_service: they touch only the session
  state and the control queue. Event pushes are not modelled.
- NetchanApi.PoolStaysPartitioned: assumes one fixed mtu of at least 79, as set before traffic.
- NetchanWhole.AnyOrderYieldsIff: the frames fed are those of the message waited for; with
  fragments of other messages in between, the four assemblies or the pool can run out, and then
  fragments are dropped.
- NetchanSession.RunsReadInOrder: assumes both ends use the same mtu of at least 79.
- NetchanData.FeedDataKept: says nothing of the state after a write past the end of a buffer;
  which bytes such a write damages is not modelled.
- netchan's fragment bitmask is modelled as a set of indices, frag_total and frag_idx as numbers.
- STREAM channels are modelled only where they share the code of the other kinds.
- MicrochanSession.RunsDeliverPrefixes: one connection lifetime, both ends opening the same
  channel layout and keeping it open; connection ids are parameters.
- Buffers and slot arrays embedded in structs are sequence-valued fields; aliasing inside one
  struct is not modelled.
- ThorWorld.World.Play: the random generator is a parameter, one sequence of draws for each search
  that may be made; creature kinds and the exit tile carry no rule and are absent; scratch arrays
  of the flood fill are sequences; a map is 3 to 256 tiles wide and high.
- CryptoSession.Crypto.OpenPacket: packets are already split into HELLO, DATA or neither; the
  byte layout of the counter and the lengths around it are not modelled, nor is wiping.
- CryptoSession.RunsOpenOnce: the cipher is ideal: a box opens under a key and counter exactly
  when it was sealed under them. One direction of the link is followed.
- CryptoReplay.CheckRefines: the 64-bit mask is a number below 2^64 and shifts are repeated
  doubling with the top bit dropped.
- AuthServer.Auth.HandleMsg: messages arrive parsed, a malformed one as such; methods are a set
  rather than a mask, so bits beyond the eight on the wire are not dropped. What an interactive
  callback decides, and the methods it offers, are answers of the step and not functions of the
  name.
- AuthCodec.DecodeInvertsEncode: strings hold no NUL, as C strings do not; a NULL entry inside
  an option list and flag bits other than the two defined are not modelled; sizes of the
  program's structures are parameters.
- Answers (encode_answers, decode_answers and the value lookups) and the WAIT and BEGIN message
  bodies: the same codec with fewer fields.
- PqHeap.Queue.constructor: growing the array (resize) and searching it (find) are left out.
- Beacon probes, and the 8-, 64-bit and signed field writers and signed readers: the same shape as
  those modelled.
- The key store, sockets, transports, terminal and demo programs.
