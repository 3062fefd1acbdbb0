// The encrypted session: the one-message handshake that derives the keys, sealing under a
// counter, and opening behind the replay window. Key exchange, hash and cipher are
// parameters; nothing is assumed of them beyond what each result states.
module CryptoSession {
  import opened Bytes
  import opened Wrappers
  import opened CryptoReplay

  const KEY_LEN := 32
  const OVERHEAD := 25
  const MAX_COUNTER: u64 := 0xffff_ffff_ffff_ffff

  // x25519, its public-key map, and the hash.
  datatype Suite = Suite(dh: (bytes, bytes) -> bytes, pub: bytes -> bytes, hash: bytes -> bytes)

  // ----- one end -----

  // A ident key is absent when none was configured.
  datatype Identity = Identity(initiator: bool, ephSk: bytes, psk: bytes, staticSk: Option<bytes>, requirePeer: bool)

  // Whether keys were derived or the handshake failed, and the keys.
  datatype Keys = Keys(ready: bool, failed: bool, sid: bytes, tx: bytes, rx: bytes)

  datatype End = End(id: Identity, keys: Keys, sent: u64, replay: Replay)

  const ZERO := Zeros(KEY_LEN)

  const NO_KEYS := Keys(false, false, ZERO, ZERO, ZERO)

  function Fresh(id: Identity): End {
    End(id, NO_KEYS, 0, Replay(0, 0))
  }

  // A HELLO carries the ephemeral public key and the identity public key, zeros for none.
  datatype Packet = Hello(eph: bytes, ident: bytes) | Data(counter: u64, box: bytes) | Junk

  function StaticPub(s: Suite, id: Identity): bytes {
    match id.staticSk
    case None => ZERO
    case Some(sk) => s.pub(sk)
  }

  function HelloOf(s: Suite, id: Identity): Packet {
    Hello(s.pub(id.ephSk), StaticPub(s, id))
  }

  // ----- deriving the keys -----

  // memcmp(a, b) > 0
  predicate Greater(a: bytes, b: bytes)
    decreases |a|
  {
    a != [] && b != [] && (a[0] > b[0] || (a[0] == b[0] && Greater(a[1..], b[1..])))
  }

  function Sorted(a: bytes, b: bytes): (bytes, bytes) {
    if Greater(a, b) then (b, a) else (a, b)
  }

  // Everything a transcript output hashes, before the label.
  datatype Transcript = Transcript(ee: bytes, es: bytes, se: bytes, ephs: (bytes, bytes), sInit: bytes, sResp: bytes,
                                   psk: bytes)

  function Input(t: Transcript, tag: byte): bytes {
    t.ee + t.es + t.se + t.ephs.0 + t.ephs.1 + t.sInit + t.sResp + t.psk + [tag]
  }

  function Output(s: Suite, t: Transcript, tag: byte): bytes {
    s.hash(Input(t, tag))
  }

  function WithStatic(s: Suite, sk: Option<bytes>, pk: bytes): bytes {
    match sk
    case None => ZERO
    case Some(k) => s.dh(k, pk)
  }

  // The other side's identity key enters only when it is present.
  function WithPeer(s: Suite, sk: bytes, ident: bytes): bytes {
    if ident == ZERO then ZERO else s.dh(sk, ident)
  }

  function TranscriptOf(s: Suite, id: Identity, eph: bytes, ident: bytes): Transcript {
    var mine := WithStatic(s, id.staticSk, eph);
    var theirs := WithPeer(s, id.ephSk, ident);
    var own := StaticPub(s, id);
    if id.initiator then
      Transcript(s.dh(id.ephSk, eph), theirs, mine, Sorted(s.pub(id.ephSk), eph), own, ident, id.psk)
    else
      Transcript(s.dh(id.ephSk, eph), mine, theirs, Sorted(s.pub(id.ephSk), eph), ident, own, id.psk)
  }

  const LABEL_SID: byte := 0
  const LABEL_I2R: byte := 1
  const LABEL_R2I: byte := 2

  function Derive(s: Suite, id: Identity, k: Keys, eph: bytes, ident: bytes): Keys {
    var t := TranscriptOf(s, id, eph, ident);
    if t.ee == ZERO then k.(failed := true)
    else if id.initiator then Keys(true, k.failed, Output(s, t, LABEL_SID), Output(s, t, LABEL_I2R), Output(s, t, LABEL_R2I))
    else Keys(true, k.failed, Output(s, t, LABEL_SID), Output(s, t, LABEL_R2I), Output(s, t, LABEL_I2R))
  }

  // A HELLO arrived; approved is the application's answer when it is asked.
  function ConsumeHello(s: Suite, id: Identity, k: Keys, eph: bytes, ident: bytes, approved: bool): Keys {
    if id.requirePeer && ident == ZERO then k.(failed := true)
    else if !approved then k.(failed := true)
    else Derive(s, id, k, eph, ident)
  }

  // ----- agreement -----

  ghost predicate Commutes(s: Suite) {
    forall a, b :: s.dh(a, s.pub(b)) == s.dh(b, s.pub(a))
  }

  // Public keys of actual secrets are not the absent marker.
  ghost predicate Marked(s: Suite, id: Identity) {
    id.staticSk.Some? ==> s.pub(id.staticSk.value) != ZERO
  }

  lemma {:induction false} GreaterTotal(a: bytes, b: bytes)
    requires |a| == |b|
    ensures !(Greater(a, b) && Greater(b, a))
    ensures a == b || Greater(a, b) || Greater(b, a)
    decreases |a|
  {
    if a != [] {
      GreaterTotal(a[1..], b[1..]);
      assert a == [a[0]] + a[1..] && b == [b[0]] + b[1..];
    }
  }

  lemma SortedSame(a: bytes, b: bytes)
    requires |a| == |b|
    ensures Sorted(a, b) == Sorted(b, a)
  {
    hide Greater;
    GreaterTotal(a, b);
  }

  // Both ends hash the same transcript from opposite halves of the key material.
  lemma SameTranscript(s: Suite, i: Identity, r: Identity)
    requires Commutes(s) && Marked(s, i) && Marked(s, r)
    requires i.initiator && !r.initiator && i.psk == r.psk && |s.pub(i.ephSk)| == |s.pub(r.ephSk)|
    ensures TranscriptOf(s, i, s.pub(r.ephSk), StaticPub(s, r)) == TranscriptOf(s, r, s.pub(i.ephSk), StaticPub(s, i))
  {
    hide Sorted, Zeros;
    SortedSame(s.pub(i.ephSk), s.pub(r.ephSk));
  }

  // ----- what the keys depend on -----

  // Keys, secrets and exchange results are 32 bytes each.
  predicate Sized(t: Transcript) {
    && |t.ee| == |t.es| == |t.se| == |t.sInit| == |t.sResp| == |t.psk| == KEY_LEN
    && |t.ephs.0| == |t.ephs.1| == KEY_LEN
  }

  ghost predicate SizedSuite(s: Suite) {
    (forall a, b :: |s.dh(a, b)| == KEY_LEN) && forall a :: |s.pub(a)| == KEY_LEN
  }

  // Equal bytes split into parts of equal length.
  lemma SplitOff(a: bytes, b: bytes, c: bytes, d: bytes)
    requires |a| == |c| && a + b == c + d
    ensures a == c && b == d
  {
    assert a == (a + b)[..|a|] && c == (c + d)[..|c|];
    assert b == (a + b)[|a|..] && d == (c + d)[|c|..];
  }

  // What is hashed determines every part of the transcript and the label.
  lemma InputIsInjective(t: Transcript, tag: byte, t': Transcript, tag': byte)
    requires Sized(t) && Sized(t') && Input(t, tag) == Input(t', tag')
    ensures t == t' && tag == tag'
  {
    var a := t.ee + t.es + t.se + t.ephs.0 + t.ephs.1 + t.sInit + t.sResp;
    var b := t'.ee + t'.es + t'.se + t'.ephs.0 + t'.ephs.1 + t'.sInit + t'.sResp;
    SplitOff(a + t.psk, [tag], b + t'.psk, [tag']);
    assert [tag][0] == [tag'][0];
    SplitOff(a, t.psk, b, t'.psk);
    SplitOff(t.ee + t.es + t.se + t.ephs.0 + t.ephs.1 + t.sInit, t.sResp,
             t'.ee + t'.es + t'.se + t'.ephs.0 + t'.ephs.1 + t'.sInit, t'.sResp);
    SplitOff(t.ee + t.es + t.se + t.ephs.0 + t.ephs.1, t.sInit, t'.ee + t'.es + t'.se + t'.ephs.0 + t'.ephs.1, t'.sInit);
    SplitOff(t.ee + t.es + t.se + t.ephs.0, t.ephs.1, t'.ee + t'.es + t'.se + t'.ephs.0, t'.ephs.1);
    SplitOff(t.ee + t.es + t.se, t.ephs.0, t'.ee + t'.es + t'.se, t'.ephs.0);
    SplitOff(t.ee + t.es, t.se, t'.ee + t'.es, t'.se);
    SplitOff(t.ee, t.es, t'.ee, t'.es);
  }

  // The hash does not collide on these two inputs.
  predicate Separates(s: Suite, a: bytes, b: bytes) {
    s.hash(a) == s.hash(b) ==> a == b
  }

  // Nor on any two of what these two transcripts hash.
  ghost predicate SeparatesAll(s: Suite, t: Transcript, t': Transcript) {
    forall tag: byte, tag': byte :: Separates(s, Input(t, tag), Input(t', tag'))
  }

  // Different transcripts give different session ids and traffic keys; and no two of the three
  // outputs of one end are the same.
  lemma OutputsApart(s: Suite, t: Transcript, tag: byte, t': Transcript, tag': byte)
    requires Sized(t) && Sized(t') && SeparatesAll(s, t, t') && (t != t' || tag != tag')
    ensures Output(s, t, tag) != Output(s, t', tag')
  {
    hide Input, Sized;
    assert Separates(s, Input(t, tag), Input(t', tag'));
    if Input(t, tag) == Input(t', tag') {
      InputIsInjective(t, tag, t', tag');
    }
  }

  lemma TranscriptSized(s: Suite, id: Identity, eph: bytes, ident: bytes)
    requires SizedSuite(s) && |id.psk| == |eph| == |ident| == KEY_LEN
    ensures Sized(TranscriptOf(s, id, eph, ident))
  {
    hide WithStatic, WithPeer, Sorted, StaticPub, Zeros;
    PartsSized(s, id.staticSk, id.ephSk, eph, ident);
    OwnSized(s, id);
    SortedSized(s.pub(id.ephSk), eph);
  }

  lemma PartsSized(s: Suite, own: Option<bytes>, sk: bytes, eph: bytes, ident: bytes)
    requires SizedSuite(s)
    ensures |WithStatic(s, own, eph)| == KEY_LEN && |WithPeer(s, sk, ident)| == KEY_LEN
  {
    hide Zeros;
  }

  lemma OwnSized(s: Suite, id: Identity)
    requires SizedSuite(s)
    ensures |StaticPub(s, id)| == KEY_LEN
  {
    hide Zeros;
  }

  lemma SortedSized(a: bytes, b: bytes)
    requires |a| == |b| == KEY_LEN
    ensures |Sorted(a, b).0| == KEY_LEN && |Sorted(a, b).1| == KEY_LEN
  {
    hide Greater;
  }

  // The two traffic keys and the session id of an end are three different values.
  lemma OwnKeysApart(s: Suite, id: Identity, k: Keys, eph: bytes, ident: bytes)
    requires SizedSuite(s) && |id.psk| == |eph| == |ident| == KEY_LEN && !k.ready
    requires var t := TranscriptOf(s, id, eph, ident); SeparatesAll(s, t, t)
    ensures var k' := Derive(s, id, k, eph, ident);
            k'.ready ==> k'.tx != k'.rx && k'.tx != k'.sid && k'.rx != k'.sid
  {
    hide Output, Sized, TranscriptOf, SeparatesAll;
    var t := TranscriptOf(s, id, eph, ident);
    TranscriptSized(s, id, eph, ident);
    OutputsApart(s, t, LABEL_SID, t, LABEL_I2R);
    OutputsApart(s, t, LABEL_SID, t, LABEL_R2I);
    OutputsApart(s, t, LABEL_I2R, t, LABEL_R2I);
  }

  // Main result on what the keys depend on: an initiator and a responder that derive keys from
  // whatever HELLOs reached them hold crossed keys, or one session id, only if every part of
  // what they hash is the same: exchanges, ephemeral keys, identities and pre-shared key.
  lemma AgreementMeansSame(s: Suite, i: Identity, r: Identity, eph: bytes, ident: bytes, eph': bytes, ident': bytes)
    requires SizedSuite(s) && i.initiator && !r.initiator
    requires |i.psk| == |eph| == |ident| == KEY_LEN && |r.psk| == |eph'| == |ident'| == KEY_LEN
    requires SeparatesAll(s, TranscriptOf(s, i, eph, ident), TranscriptOf(s, r, eph', ident'))
    ensures var ki, kr := Derive(s, i, NO_KEYS, eph, ident), Derive(s, r, NO_KEYS, eph', ident');
            ki.ready && kr.ready && (ki.tx == kr.rx || ki.rx == kr.tx || ki.sid == kr.sid) ==>
              TranscriptOf(s, i, eph, ident) == TranscriptOf(s, r, eph', ident')
  {
    hide Output, Sized, TranscriptOf, SeparatesAll;
    var t, t' := TranscriptOf(s, i, eph, ident), TranscriptOf(s, r, eph', ident');
    TranscriptSized(s, i, eph, ident);
    TranscriptSized(s, r, eph', ident');
    if t != t' {
      OutputsApart(s, t, LABEL_SID, t', LABEL_SID);
      OutputsApart(s, t, LABEL_I2R, t', LABEL_I2R);
      OutputsApart(s, t, LABEL_R2I, t', LABEL_R2I);
    }
  }

  // Which for an initiator that took the responder to hold identity ident, and a responder that
  // took the initiator to hold ident', says: one pre-shared key; each identity as claimed; and
  // for each identity in play the exchange under it is the one the other side computed.
  lemma SameMeans(s: Suite, i: Identity, r: Identity, eph: bytes, ident: bytes, eph': bytes, ident': bytes)
    requires i.initiator && !r.initiator
    requires TranscriptOf(s, i, eph, ident) == TranscriptOf(s, r, eph', ident')
    ensures i.psk == r.psk
    ensures ident == StaticPub(s, r) && ident' == StaticPub(s, i)
    ensures s.dh(i.ephSk, eph) == s.dh(r.ephSk, eph')
    ensures WithPeer(s, i.ephSk, ident) == WithStatic(s, r.staticSk, eph')
    ensures WithStatic(s, i.staticSk, eph) == WithPeer(s, r.ephSk, ident')
    ensures multiset{s.pub(i.ephSk), eph} == multiset{s.pub(r.ephSk), eph'}
  {
    hide Sorted, Greater;
    SortedKeeps(s.pub(i.ephSk), eph);
    SortedKeeps(s.pub(r.ephSk), eph');
  }

  lemma SortedKeeps(a: bytes, b: bytes)
    ensures multiset{Sorted(a, b).0, Sorted(a, b).1} == multiset{a, b}
  {
  }

  // So ends with different pre-shared keys, however they came to derive keys, share none.
  lemma PskMustMatch(s: Suite, i: Identity, r: Identity, okI: bool, okR: bool)
    requires SizedSuite(s) && i.initiator && !r.initiator && |i.psk| == |r.psk| == KEY_LEN && i.psk != r.psk
    requires SeparatesAll(s, TranscriptOf(s, i, s.pub(r.ephSk), StaticPub(s, r)),
                          TranscriptOf(s, r, s.pub(i.ephSk), StaticPub(s, i)))
    ensures var ki := Open(s, Fresh(i), HelloOf(s, r), 0, okI, None).0.keys;
            var kr := Open(s, Fresh(r), HelloOf(s, i), 0, okR, None).0.keys;
            ki.ready && kr.ready ==> ki.tx != kr.rx && ki.rx != kr.tx && ki.sid != kr.sid
  {
    hide Derive, TranscriptOf, SeparatesAll, Sized, Zeros;
    AgreementMeansSame(s, i, r, s.pub(r.ephSk), StaticPub(s, r), s.pub(i.ephSk), StaticPub(s, i));
    if TranscriptOf(s, i, s.pub(r.ephSk), StaticPub(s, r)) == TranscriptOf(s, r, s.pub(i.ephSk), StaticPub(s, i)) {
      SameMeans(s, i, r, s.pub(r.ephSk), StaticPub(s, r), s.pub(i.ephSk), StaticPub(s, i));
    }
  }

  // ----- packets -----

  datatype Opened = Refused | Nothing | Plain(data: bytes)

  // unlock is the cipher's verdict on the box under the receive key and this counter.
  function Open(s: Suite, e: End, pkt: Packet, room: nat, approved: bool, unlock: Option<bytes>): (End, Opened) {
    if e.keys.failed then (e, Refused)
    else
      match pkt
      case Hello(eph, ident) =>
        (if !e.keys.ready then e.(keys := ConsumeHello(s, e.id, e.keys, eph, ident, approved)) else e, Nothing)
      case Data(counter, box) =>
        if !e.keys.ready || |box| > room || unlock.None? then (e, Refused)
        else
          var (replay, ok) := Check(e.replay, counter);
          if ok then (e.(replay := replay), Plain(unlock.value)) else (e, Refused)
      case Junk => (e, Refused)
  }

  // Main result of the handshake: fresh ends that open each other's unmodified HELLO, with
  // opposite roles and one pre-shared key, hold crossed keys and one session id whenever both
  // are ready; and each is ready exactly when it wanted and approved its peer and the
  // exchange is not degenerate, the last being the same for both.
  lemma PeersAgree(s: Suite, i: Identity, r: Identity, okI: bool, okR: bool)
    requires Commutes(s) && Marked(s, i) && Marked(s, r)
    requires i.initiator && !r.initiator && i.psk == r.psk && |s.pub(i.ephSk)| == |s.pub(r.ephSk)|
    ensures var ki := Open(s, Fresh(i), HelloOf(s, r), 0, okI, None).0.keys;
            var kr := Open(s, Fresh(r), HelloOf(s, i), 0, okR, None).0.keys;
            && (ki.ready && kr.ready ==> ki.tx == kr.rx && ki.rx == kr.tx && ki.sid == kr.sid)
            && (ki.ready <==> okI && !(i.requirePeer && r.staticSk.None?) && s.dh(i.ephSk, s.pub(r.ephSk)) != ZERO)
            && (kr.ready <==> okR && !(r.requirePeer && i.staticSk.None?) && s.dh(i.ephSk, s.pub(r.ephSk)) != ZERO)
  {
    SameTranscript(s, i, r);
  }

  // The counter a sealed packet goes under, if it is sealed at all.
  function Seal(e: End, len: nat, cap: nat): (End, Option<u64>) {
    if !e.keys.ready || cap < len + OVERHEAD || e.sent == MAX_COUNTER then (e, None)
    else (e.(sent := e.sent + 1), Some(e.sent + 1))
  }

  // What an end says to a packet: nothing exactly to a HELLO while it has not failed, a text only
  // to a DATA packet that is authentic and fits, and otherwise it refuses and stays as it is.
  lemma OpenAnswers(s: Suite, e: End, pkt: Packet, room: nat, approved: bool, unlock: Option<bytes>)
    ensures var (e', r) := Open(s, e, pkt, room, approved, unlock);
            && (r.Nothing? <==> pkt.Hello? && !e.keys.failed)
            && (r.Refused? ==> e' == e)
            && (r.Plain? ==> pkt.Data? && e.keys.ready && !e.keys.failed && |pkt.box| <= room && unlock == Some(r.data))
            && e'.sent == e.sent && e'.id == e.id
  {
    hide ConsumeHello, Check;
  }

  // A packet is sealed exactly when there are keys, room for text and overhead, and a counter
  // left; then under the next one, and otherwise nothing changes.
  lemma SealsIff(e: End, len: nat, cap: nat)
    ensures var (e', c) := Seal(e, len, cap);
            && (c.Some? <==> e.keys.ready && len + OVERHEAD <= cap && e.sent < MAX_COUNTER)
            && e' == e.(sent := if c.Some? then c.value else e.sent) && (c.Some? ==> c.value == e.sent + 1)
  {
  }

  // ----- one end over any run -----

  datatype Event =
    | Opens(pkt: Packet, room: nat, approved: bool, unlock: Option<bytes>)
    | Seals(len: nat, cap: nat)

  function React(s: Suite, e: End, ev: Event): End {
    match ev
    case Opens(pkt, room, approved, unlock) => Open(s, e, pkt, room, approved, unlock).0
    case Seals(len, cap) => Seal(e, len, cap).0
  }

  function ReactAll(s: Suite, e: End, evs: seq<Event>): End
    decreases |evs|
  {
    if evs == [] then e else ReactAll(s, React(s, e, evs[0]), evs[1..])
  }

  // Keys, once set, are never replaced, and a failed end stays failed and changes nothing
  // more, whatever arrives.
  lemma {:induction false} VerdictIsFinal(s: Suite, e: End, evs: seq<Event>)
    requires !(e.keys.ready && e.keys.failed)
    ensures var e' := ReactAll(s, e, evs);
            && !(e'.keys.ready && e'.keys.failed)
            && (e.keys.ready ==> e'.keys == e.keys)
            && (e.keys.failed ==> e' == e)
            && e'.id == e.id && e'.sent >= e.sent && e'.replay.max >= e.replay.max
    decreases |evs|
  {
    hide Output, TranscriptOf, Shifted, WithBit, Bit;
    if evs != [] {
      VerdictIsFinal(s, React(s, e, evs[0]), evs[1..]);
    }
  }

  // A packet the cipher rejects leaves the end, and its replay window, as it was.
  lemma ForgeryLeavesNoTrace(s: Suite, e: End, counter: u64, box: bytes, room: nat, approved: bool)
    ensures Open(s, e, Data(counter, box), room, approved, None) == (e, Refused)
  {
  }

  // ----- sealing and opening across an untrusted network -----

  // The counters sealed under, in order, what was sealed under each, and what the receiver
  // handed up, in order.
  datatype Sealed = Sealed(plain: bytes, box: bytes)
  datatype Got = Got(counter: u64, plain: bytes)
  datatype Link = Link(snd: End, rcv: End, spent: seq<u64>, sealed: map<u64, Sealed>, got: seq<Got>)

  // The attacker may present any counter with any box, and a HELLO to either end at any time.
  datatype Move =
    | Sends(plain: bytes, box: bytes, cap: nat)
    | Presents(counter: u64, box: bytes, room: nat)
    | Hellos(toSender: bool, eph: bytes, ident: bytes, approved: bool)

  // The ideal cipher opens exactly what was sealed under that key and counter.
  function Unlock(l: Link, counter: u64, box: bytes): Option<bytes> {
    if l.rcv.keys.rx == l.snd.keys.tx && counter in l.sealed && l.sealed[counter].box == box
    then Some(l.sealed[counter].plain)
    else None
  }

  function Step(s: Suite, l: Link, m: Move): Link {
    match m
    case Sends(plain, box, cap) =>
      var (snd, counter) := Seal(l.snd, |plain|, cap);
      if counter.None? then l
      else l.(snd := snd, spent := l.spent + [counter.value], sealed := l.sealed[counter.value := Sealed(plain, box)])
    case Presents(counter, box, room) =>
      var (rcv, out) := Open(s, l.rcv, Data(counter, box), room, false, Unlock(l, counter, box));
      l.(rcv := rcv, got := if out.Plain? then l.got + [Got(counter, out.data)] else l.got)
    case Hellos(toSender, eph, ident, approved) =>
      if toSender then l.(snd := Open(s, l.snd, Hello(eph, ident), 0, approved, None).0)
      else l.(rcv := Open(s, l.rcv, Hello(eph, ident), 0, approved, None).0)
  }

  ghost function Counters(got: seq<Got>): set<u64> {
    set i | 0 <= i < |got| :: got[i].counter
  }

  ghost predicate Once(got: seq<Got>) {
    forall i, j :: 0 <= i < j < |got| ==> got[i].counter != got[j].counter
  }

  // No counter twice: each is above all before it.
  ghost predicate Increasing(spent: seq<u64>) {
    forall i, j :: 0 <= i < j < |spent| ==> spent[i] < spent[j]
  }

  // Counters were spent once each and none is above the sender's; what was sealed was sealed
  // under them; what was handed up was sealed, once each; and the replay window stands for
  // what was handed up.
  ghost predicate LinkOk(l: Link) {
    && Increasing(l.spent) && (forall i :: 0 <= i < |l.spent| ==> l.spent[i] <= l.snd.sent)
    && (forall c :: c in l.sealed <==> c in l.spent)
    && (forall i :: 0 <= i < |l.got| ==> l.got[i].counter in l.sealed && l.sealed[l.got[i].counter].plain == l.got[i].plain)
    && Once(l.got)
    && Refines(l.rcv.replay, Counters(l.got))
  }

  lemma CountersMore(got: seq<Got>, g: Got)
    ensures Counters(got + [g]) == Counters(got) + {g.counter}
  {
    assert forall i :: 0 <= i < |got| ==> (got + [g])[i] == got[i];
    assert (got + [g])[|got|] == g;
  }

  // Every move keeps this; a send is under a counter nothing was sealed under before, and
  // what was sealed stays.
  lemma StepKeeps(s: Suite, l: Link, m: Move)
    requires LinkOk(l)
    ensures var l' := Step(s, l, m);
            && LinkOk(l')
            && l.spent <= l'.spent && l.got <= l'.got
            && (forall c :: c in l.sealed ==> c in l'.sealed && l'.sealed[c] == l.sealed[c])
    ensures m.Sends? ==> var counter := Seal(l.snd, |m.plain|, m.cap).1; counter.Some? ==> counter.value !in l.sealed
  {
    hide Refines, Check, Counters, ConsumeHello;
    match m
    case Sends(plain, box, cap) =>
    case Presents(counter, box, room) =>
      CheckRefines(l.rcv.replay, Counters(l.got), counter);
      if Step(s, l, m).got != l.got {
        CountersMore(l.got, Got(counter, l.sealed[counter].plain));
        NotYet(l.got, counter);
      }
    case Hellos(toSender, eph, ident, approved) =>
  }

  // A presented datagram is handed up if and only if the receiver has keys and has not failed, it
  // fits the room, it is one that was sealed under the sender's key, and its counter was not
  // handed up before and is above the highest or fewer than 64 below it.
  lemma HandsUpIff(s: Suite, l: Link, counter: u64, box: bytes, room: nat)
    requires LinkOk(l)
    ensures var l', text := Step(s, l, Presents(counter, box, room)), Unlock(l, counter, box);
            if l.rcv.keys.ready && !l.rcv.keys.failed && |box| <= room && text.Some?
               && Acceptable(l.rcv.replay, Counters(l.got), counter)
            then l'.got == l.got + [Got(counter, text.value)]
            else l' == l
  {
    hide Refines, Check, Counters, Acceptable;
    CheckRefines(l.rcv.replay, Counters(l.got), counter);
  }

  // So what is sealed is opened: the next datagram of a sender, presented with room to a
  // receiver that holds the matching key, hands up its text.
  lemma SealedOpens(s: Suite, l: Link, plain: bytes, box: bytes, cap: nat, room: nat)
    requires LinkOk(l) && l.snd.keys.ready && l.rcv.keys.ready && !l.rcv.keys.failed
    requires l.rcv.keys.rx == l.snd.keys.tx
    requires cap >= |plain| + OVERHEAD && |box| <= room && l.snd.sent < MAX_COUNTER
    ensures var l1 := Step(s, l, Sends(plain, box, cap));
            && l1.spent == l.spent + [l.snd.sent + 1] && l1.snd.sent == l.snd.sent + 1
            && Step(s, l1, Presents(l.snd.sent + 1, box, room)).got == l.got + [Got(l.snd.sent + 1, plain)]
  {
    hide Step, LinkOk, Counters, Acceptable;
    StepKeeps(s, l, Sends(plain, box, cap));
    var l1 := Step(s, l, Sends(plain, box, cap));
    SendSeals(s, l, plain, box, cap);
    NextIsNew(l);
    HandsUpIff(s, l1, l.snd.sent + 1, box, room);
  }

  lemma SendSeals(s: Suite, l: Link, plain: bytes, box: bytes, cap: nat)
    requires l.snd.keys.ready && cap >= |plain| + OVERHEAD && l.snd.sent < MAX_COUNTER
    ensures var n := l.snd.sent + 1;
            Step(s, l, Sends(plain, box, cap)) ==
            l.(snd := l.snd.(sent := n), spent := l.spent + [n], sealed := l.sealed[n := Sealed(plain, box)])
  {
  }

  // The receiver would take the next counter of the sender.
  lemma NextIsNew(l: Link)
    requires LinkOk(l) && l.snd.sent < MAX_COUNTER
    ensures Acceptable(l.rcv.replay, Counters(l.got), l.snd.sent + 1)
  {
    MaxWasSeen(l.rcv.replay, Counters(l.got));
    forall c | c in Counters(l.got) ensures c <= l.snd.sent {
      SpentByThen(l, c);
    }
  }

  lemma SpentByThen(l: Link, c: u64)
    requires LinkOk(l) && c in Counters(l.got)
    ensures c <= l.snd.sent
  {
    hide Refines;
    assert c in l.sealed;
  }

  lemma MaxWasSeen(r: Replay, seen: set<u64>)
    requires Refines(r, seen)
    ensures r.max == 0 || r.max in seen
  {
  }

  lemma NotYet(got: seq<Got>, counter: u64)
    requires counter !in Counters(got)
    ensures forall i :: 0 <= i < |got| ==> got[i].counter != counter
  {
    forall i | 0 <= i < |got| ensures got[i].counter != counter {
      assert got[i].counter in Counters(got);
    }
  }

  function Steps(s: Suite, l: Link, ms: seq<Move>): Link
    decreases |ms|
  {
    if ms == [] then l else Steps(s, Step(s, l, ms[0]), ms[1..])
  }

  // In every run: no counter is sealed under twice, and each sealed packet is opened at most
  // once, to exactly the text sealed.
  lemma {:induction false} EachOpensOnce(s: Suite, l: Link, ms: seq<Move>)
    requires LinkOk(l)
    ensures LinkOk(Steps(s, l, ms))
    decreases |ms|
  {
    hide LinkOk, Step;
    if ms != [] {
      StepKeeps(s, l, ms[0]);
      EachOpensOnce(s, Step(s, l, ms[0]), ms[1..]);
    }
  }

  // A packet the cipher rejects might as well not have arrived, wherever in the run it did.
  lemma {:induction false} ForgeryVanishes(s: Suite, l: Link, before: seq<Move>, forged: Move, later: seq<Move>)
    requires forged.Presents? && Unlock(Steps(s, l, before), forged.counter, forged.box).None?
    ensures Steps(s, l, before + [forged] + later) == Steps(s, l, before + later)
    decreases |before|
  {
    hide Step;
    if before == [] {
      RefusedStep(s, l, forged);
      assert before + [forged] + later == [forged] + later && ([forged] + later)[1..] == later;
      assert before + later == later;
    } else {
      assert (before + [forged] + later)[1..] == before[1..] + [forged] + later;
      assert (before + later)[1..] == before[1..] + later;
      ForgeryVanishes(s, Step(s, l, before[0]), before[1..], forged, later);
    }
  }

  lemma RefusedStep(s: Suite, l: Link, m: Move)
    requires m.Presents? && Unlock(l, m.counter, m.box).None?
    ensures Step(s, l, m) == l
  {
    ForgeryLeavesNoTrace(s, l.rcv, m.counter, m.box, m.room, false);
  }

  // Two ends that have exchanged nothing.
  function Outset(snd: Identity, rcv: Identity): Link {
    Link(Fresh(snd), Fresh(rcv), [], map[], [])
  }

  lemma LinkStarts(snd: Identity, rcv: Identity)
    ensures LinkOk(Outset(snd, rcv))
  {
    hide Refines;
    NothingSeen();
    assert Counters([]) == {};
  }

  // Main result of the record layer, from the start and through whatever handshake the
  // network allows: every counter is used for one packet only, and what the receiver hands up
  // was sealed under the counter it came with, each counter once.
  lemma RunsOpenOnce(s: Suite, snd: Identity, rcv: Identity, ms: seq<Move>)
    ensures var l := Steps(s, Outset(snd, rcv), ms);
            && Increasing(l.spent)
            && (forall c :: c in l.sealed <==> c in l.spent)
            && Once(l.got)
            && forall i :: 0 <= i < |l.got| ==>
                 l.got[i].counter in l.sealed && l.sealed[l.got[i].counter].plain == l.got[i].plain
  {
    hide Refines, Steps, Outset;
    LinkStarts(snd, rcv);
    EachOpensOnce(s, Outset(snd, rcv), ms);
  }

  // ----- the object -----

  // A crypto end as the program holds it: fields updated in place.
  class Crypto {
    const suite: Suite
    const id: Identity
    var keys: Keys
    var sent: u64
    var rxMax: u64
    var rxWindow: u64

    ghost function Abs(): End
      reads this
    {
      End(id, keys, sent, Replay(rxMax, rxWindow))
    }

    constructor (suite: Suite, id: Identity)
      ensures Abs() == Fresh(id) && this.suite == suite
    {
      this.suite, this.id, keys, sent, rxMax, rxWindow := suite, id, NO_KEYS, 0, 0, 0;
    }

    method ReplayCheck(counter: u64) returns (ok: bool)
      modifies this`rxMax, this`rxWindow
      ensures (Replay(rxMax, rxWindow), ok) == Check(old(Replay(rxMax, rxWindow)), counter)
    {
      if counter == 0 { return false; }
      if counter > rxMax {
        rxWindow := Shifted(rxWindow, counter - rxMax);
        rxMax := counter;
        return true;
      }
      var diff := rxMax - counter;
      if diff >= 64 { return false; }
      if Bit(rxWindow, diff) { return false; }
      rxWindow := WithBit(rxWindow, diff);
      ok := true;
    }

    method OpenPacket(pkt: Packet, room: nat, approved: bool, unlock: Option<bytes>) returns (out: Opened)
      modifies this
      ensures (Abs(), out) == Open(suite, old(Abs()), pkt, room, approved, unlock)
    {
      hide ConsumeHello, Check;
      if keys.failed { return Refused; }
      match pkt
      case Hello(eph, ident) =>
        if !keys.ready {
          keys := ConsumeHello(suite, id, keys, eph, ident, approved);
        }
        out := Nothing;
      case Data(counter, box) =>
        if !keys.ready || |box| > room || unlock.None? { return Refused; }
        ghost var was := Replay(rxMax, rxWindow);
        var ok := ReplayCheck(counter);
        RefusedUnchanged(was, counter);
        out := if ok then Plain(unlock.value) else Refused;
      case Junk =>
        out := Refused;
    }

    method SealPacket(len: nat, cap: nat) returns (counter: Option<u64>)
      modifies this`sent
      ensures (Abs(), counter) == Seal(old(Abs()), len, cap)
    {
      if !keys.ready || cap < len + OVERHEAD || sent == MAX_COUNTER { return None; }
      sent := sent + 1;
      counter := Some(sent);
    }
  }

  lemma RefusedUnchanged(r: Replay, counter: u64)
    ensures var (r', ok) := Check(r, counter); !ok ==> r' == r
  {
  }
}
