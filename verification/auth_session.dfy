// The client side of a login, and a client and server joined by two queues in order.
module AuthSession {
  import opened Bytes
  import opened Wrappers
  import opened AuthServer

  datatype Need = Nothing | NeedKey | NeedPassword | NeedMethod | NeedForm

  // The player's choice of method, and whether it has already been put to use.
  datatype Choice = Choice(asked: bool, chosen: Option<set<Method>>)

  datatype Client = Client(session: Session, state: State, need: Need, user: bytes, avail: set<Method>, choice: Choice,
                           running: Option<Method>, cancelling: bool, registered: bool, token: bool)

  // The name is a C string, cut off after 64 bytes.
  function NewClient(session: Session, user: bytes): Client {
    Client(session, Pending, Nothing, Signee(user), {}, Choice(false, None), None, false, false, false)
  }

  const QUESTIONS := {Register, Interactive}

  // Pick the best method still on the table. A question only the player can answer goes first.
  function TryNext(c: Client): (Client, seq<Msg>)
    decreases Flag(c.choice.chosen.Some?), 2
  {
    if c.state != Pending then (c, [])
    else if !c.choice.asked && c.avail * QUESTIONS != {} then
      if c.choice.chosen.Some? then Choose(c) else (c.(need := NeedMethod), [])
    else if PublicKey in c.avail then (c.(avail := c.avail - {PublicKey}, need := NeedKey), [])
    else if Password in c.avail then (c.(avail := c.avail - {Password}, need := NeedPassword), [])
    else (c.(need := Nothing, state := Denied), [])
  }

  // Act on the player's answer.
  function Choose(c: Client): (Client, seq<Msg>)
    requires c.choice.chosen.Some?
    decreases Flag(c.choice.chosen.Some?), 1
  {
    var chosen := c.choice.chosen.value;
    var want := chosen * QUESTIONS;
    var c1 := c.(choice := c.choice.(chosen := None));
    if chosen == {} then (c1.(need := Nothing, state := Denied), [])
    else if want == {} then TryNext(c1.(choice := Choice(true, None)))
    else if want * c.avail == {} then (c1.(need := NeedMethod), [])
    else
      var kind := if Register in want * c.avail then Register else Interactive;
      (c1.(running := Some(kind), need := Nothing), [MsgBegin(kind, c.token)])
  }

  // One reply; decodes says whether a form or note parses.
  function ClientFeed(c: Client, r: Reply, decodes: bool, token: bool): (Client, seq<Msg>) {
    if c.state != Pending then (c, [])
    else
      match r
      case SayMethods(avail) =>
        var c1 := c.(registered := c.registered || (c.running == Some(Register) && !c.cancelling),
                     running := None, cancelling := false, choice := c.choice.(asked := false), avail := avail);
        if avail == {} then (c1.(state := Denied), []) else TryNext(c1)
      case SayOk => (c.(state := Admitted), [])
      case SayFail(avail) =>
        TryNext(c.(avail := c.avail * avail, running := None, cancelling := false, choice := c.choice.(asked := false)))
      case SayForm =>
        if c.cancelling then (c, [])
        else if c.running.None? || c.need == NeedForm || !decodes then (c.(state := Denied), [])
        else (c.(need := NeedForm), [])
      case SayWait =>
        if c.cancelling then (c, [])
        else if c.running.None? || !decodes then (c.(state := Denied), [])
        else (c.(need := Nothing, token := c.token || token), [])
  }

  // ----- the application's calls -----

  datatype KeyPair = KeyPair(sk: bytes, pk: bytes)

  // The key login for this session, name and key.
  function KeyLogin(c: Client, key: KeyPair): Msg {
    MsgPublicKey(key.pk, c.session.suite.sign(key.sk, Digest(c.session, c.user, key.pk)))
  }

  datatype Call =
    | Greets
    | SuppliesKey(key: Option<KeyPair>)
    | SuppliesPassword(pass: Option<bytes>)
    | SuppliesMethod(chosen: set<Method>)
    | Submits(answers: bool, encodes: bool)
    | GivesUp

  function DoCancel(c: Client): (Client, seq<Msg>) {
    if c.running.None? || c.cancelling then (c, [])
    else (c.(cancelling := true, need := Nothing, token := false), [MsgCancel])
  }

  function Do(c: Client, call: Call): (Client, seq<Msg>) {
    match call
    case Greets => if c.state != Pending then (c, []) else (c, [MsgHello(c.user)])
    case SuppliesKey(key) =>
      if c.need != NeedKey then (c, [])
      else if key.None? then TryNext(c.(need := Nothing))
      else (c.(need := Nothing), [KeyLogin(c, key.value)])
    case SuppliesPassword(pass) =>
      if c.need != NeedPassword then (c, [])
      else if pass.None? || |pass.value| > MAX_PASS - 1 then TryNext(c.(need := Nothing))
      else (c.(need := Nothing), [MsgPassword(pass.value)])
    case SuppliesMethod(chosen) =>
      var c1 := c.(choice := c.choice.(chosen := Some(chosen)));
      if c.need == NeedMethod then Choose(c1.(need := Nothing)) else (c1, [])
    case Submits(answers, encodes) =>
      if c.need != NeedForm then (c, [])
      else if !answers then DoCancel(c.(need := Nothing))
      else if !encodes then (c.(need := Nothing, state := Denied), [])
      else (c.(need := Nothing), [MsgSubmit])
    case GivesUp => DoCancel(c)
  }

  // ----- what the client never does -----

  // Greets only as itself, and is never admitted by anything but the server's word.
  ghost predicate Plain(c: Client, r: (Client, seq<Msg>)) {
    && r.0.user == c.user
    && (r.0.state == Admitted ==> c.state == Admitted)
    && forall i :: 0 <= i < |r.1| && r.1[i].MsgHello? ==> r.1[i].user == c.user
  }

  lemma {:induction false} TryNextPlain(c: Client)
    ensures Plain(c, TryNext(c))
    decreases Flag(c.choice.chosen.Some?), 2
  {
    hide Choose;
    if c.choice.chosen.Some? {
      ChoosePlain(c);
    }
  }

  lemma {:induction false} ChoosePlain(c: Client)
    requires c.choice.chosen.Some?
    ensures Plain(c, Choose(c))
    decreases Flag(c.choice.chosen.Some?), 1
  {
    hide TryNext;
    TryNextPlain(c.(choice := Choice(true, None)));
  }

  lemma DoPlain(c: Client, call: Call)
    ensures Plain(c, Do(c, call))
  {
    hide TryNext, Choose;
    TryNextPlain(c.(need := Nothing));
    match call
    case SuppliesMethod(chosen) => ChoosePlain(c.(choice := c.choice.(chosen := Some(chosen)), need := Nothing));
    case _ =>
  }

  // Whatever the server offers, the client ends up denied, asking its application for
  // something, or having begun an interactive method: it never falls silent.
  lemma {:induction false} NeverSilent(c: Client)
    requires c.state == Pending
    ensures var (c', out) := TryNext(c);
            c'.state == Denied || c'.need != Nothing || (c'.running.Some? && out == [MsgBegin(c'.running.value, c.token)])
    decreases Flag(c.choice.chosen.Some?)
  {
    if !c.choice.asked && c.avail * QUESTIONS != {} && c.choice.chosen.Some? {
      var chosen := c.choice.chosen.value;
      if chosen != {} && chosen * QUESTIONS == {} {
        NeverSilent(c.(choice := Choice(true, None)));
      }
    }
  }

  lemma FeedPlain(c: Client, r: Reply, decodes: bool, token: bool)
    ensures var (c', out) := ClientFeed(c, r, decodes, token);
            && c'.user == c.user
            && (c'.state == Admitted ==> c.state == Admitted || r == SayOk)
            && forall i :: 0 <= i < |out| && out[i].MsgHello? ==> out[i].user == c.user
  {
    hide TryNext;
    match r
    case SayMethods(avail) =>
      TryNextPlain(c.(registered := c.registered || (c.running == Some(Register) && !c.cancelling),
                      running := None, cancelling := false, choice := c.choice.(asked := false), avail := avail));
    case SayFail(avail) =>
      TryNextPlain(c.(avail := c.avail * avail, running := None, cancelling := false, choice := c.choice.(asked := false)));
    case _ =>
  }

  // ----- both ends, joined by queues -----

  datatype Sys = Sys(client: Client, server: Server, up: seq<Msg>, down: seq<Reply>)

  datatype Move =
    | Calls(call: Call)
    | ServerReads(a: Answers)
    | ServerResolves(v: Verdict, methods: set<Method>)
    | ClientReads(decodes: bool, token: bool)

  function Play(s: Sys, m: Move): Sys {
    match m
    case Calls(call) =>
      var (c, out) := Do(s.client, call);
      s.(client := c, up := s.up + out)
    case ServerReads(a) =>
      if s.up == [] then s
      else
        var (v, out) := Feed(s.server, s.up[0], a);
        s.(server := v, up := s.up[1..], down := s.down + out)
    case ServerResolves(v, methods) =>
      var (srv, out) := Resume(s.server, v, methods);
      s.(server := srv, down := s.down + out)
    case ClientReads(decodes, token) =>
      if s.down == [] then s
      else
        var (c, out) := ClientFeed(s.client, s.down[0], decodes, token);
        s.(client := c, up := s.up + out, down := s.down[1..])
  }

  // Every greeting on its way names the client; the server knows it by no other name; and
  // OK is on its way, or was heard, only from a server that is OK.
  ghost predicate Faithful(s: Sys) {
    && Ok(s.server)
    && (forall i :: 0 <= i < |s.up| && s.up[i].MsgHello? ==> s.up[i].user == s.client.user)
    && (s.server.greeted ==> s.server.user == s.client.user)
    && (s.server.state == Admitted ==> s.server.greeted)
    && (SayOk in s.down || s.client.state == Admitted ==> s.server.state == Admitted)
  }

  // What a server step may change of its name and standing.
  lemma ServerStands(s: Server, e: Event)
    requires Ok(s) && !e.Clears? && (s.state == Admitted ==> s.greeted)
    ensures var s' := Step(s, e).0;
            && (s.state == Admitted ==> s' == s)
            && (s'.state == Admitted ==> s'.greeted)
            && (s.greeted ==> s'.greeted && s'.user == s.user)
            && (s'.greeted && !s.greeted ==> e.Receives? && e.m.MsgHello? && s'.user == e.m.user)
  {
    hide Deny, Offer, SignedFor, Text;
    StandsDeny(s);
  }

  lemma StandsDeny(s: Server)
    ensures forall x, spent :: Deny(x, spent).0.user == x.user && Deny(x, spent).0.greeted == x.greeted
                               && (Deny(x, spent).0.state == Admitted ==> x.state == Admitted)
    ensures forall x, ms :: Offer(x, ms).0.user == x.user && Offer(x, ms).0.greeted == x.greeted
                            && (Offer(x, ms).0.state == Admitted ==> x.state == Admitted)
  {
  }

  lemma ServerMove(s: Sys, e: Event, up: seq<Msg>)
    requires Faithful(s) && !e.Clears?
    requires forall i :: 0 <= i < |up| && up[i].MsgHello? ==> up[i].user == s.client.user
    requires e.Receives? && e.m.MsgHello? ==> e.m.user == s.client.user
    ensures Faithful(s.(server := Step(s.server, e).0, up := up, down := s.down + Step(s.server, e).1))
  {
    hide Step;
    StepKeepsOk(s.server, e);
    ServerStands(s.server, e);
    SaysOkIff(s.server, e);
  }

  lemma PlayKeeps(s: Sys, m: Move)
    requires Faithful(s)
    ensures Faithful(Play(s, m))
  {
    hide Do, Feed, Resume, ClientFeed, Ok;
    match m
    case Calls(call) => DoPlain(s.client, call);
    case ServerReads(a) =>
      if s.up != [] { ServerMove(s, Receives(s.up[0], a), s.up[1..]); }
    case ServerResolves(v, methods) => ServerMove(s, Resolves(v, methods), s.up);
    case ClientReads(decodes, token) =>
      if s.down != [] { FeedPlain(s.client, s.down[0], decodes, token); }
  }

  function PlayAll(s: Sys, ms: seq<Move>): Sys
    decreases |ms|
  {
    if ms == [] then s else PlayAll(Play(s, ms[0]), ms[1..])
  }

  // Main result: with messages arriving in order, a client that believes itself logged in
  // faces a server that logged in that very user.
  lemma {:induction false} ClientOkMeansServerOk(s: Sys, ms: seq<Move>)
    requires Faithful(s)
    ensures var s' := PlayAll(s, ms);
            s'.client.state == Admitted ==> s'.server.state == Admitted && s'.server.user == s'.client.user
    decreases |ms|
  {
    hide Play;
    if ms != [] {
      PlayKeeps(s, ms[0]);
      ClientOkMeansServerOk(Play(s, ms[0]), ms[1..]);
    }
  }

  // Both ends as they are set up, nothing sent.
  function Outset(mine: Session, theirs: Session, user: bytes): Sys {
    Sys(NewClient(mine, user), Start(theirs), [], [])
  }

  lemma FreshIsFaithful(mine: Session, theirs: Session, user: bytes)
    ensures Faithful(Outset(mine, theirs, user))
  {
    hide Signee;
  }

  lemma {:induction false} ClientStays(s: Sys, ms: seq<Move>)
    ensures PlayAll(s, ms).client.user == s.client.user
    decreases |ms|
  {
    hide Play;
    if ms != [] {
      PlayNames(s, ms[0]);
      ClientStays(Play(s, ms[0]), ms[1..]);
    }
  }

  lemma PlayNames(s: Sys, m: Move)
    ensures Play(s, m).client.user == s.client.user
  {
    hide Do, ClientFeed, Feed, Resume;
    match m
    case Calls(call) => DoPlain(s.client, call);
    case ClientReads(decodes, token) => if s.down != [] { FeedPlain(s.client, s.down[0], decodes, token); }
    case _ =>
  }

  // So from the start: whenever the client believes itself logged in, the server has logged
  // in the name the client was set up with.
  lemma LoginIsMutual(mine: Session, theirs: Session, user: bytes, ms: seq<Move>)
    ensures var s := PlayAll(Outset(mine, theirs, user), ms);
            s.client.state == Admitted ==> s.server.state == Admitted && s.server.user == Signee(user)
  {
    hide PlayAll, Signee, Faithful;
    FreshIsFaithful(mine, theirs, user);
    ClientOkMeansServerOk(Outset(mine, theirs, user), ms);
    ClientStays(Outset(mine, theirs, user), ms);
  }

  // ----- the key login of an honest client -----

  // The pair's signatures check out.
  ghost predicate Matching(suite: Suite, key: KeyPair) {
    |key.pk| == KEY_LEN && forall d :: |suite.sign(key.sk, d)| == SIG_LEN && suite.verify(suite.sign(key.sk, d), key.pk, d)
  }

  // A client in the server's own session that supplies a key authorised for its name is let
  // in, if keys are on offer.
  lemma KeyLoginSucceeds(c: Client, s: Server, key: KeyPair, a: Answers)
    requires c.session == s.session && Matching(c.session.suite, key)
    requires s.state == Pending && s.greeted && s.user == c.user && PublicKey in s.avail && a.checkKey(Text(s.user), key.pk)
    ensures Feed(s, KeyLogin(c, key), a) == (s.(state := Admitted), [SayOk])
  {
    hide Text, SignedInput;
    var d := Digest(c.session, c.user, key.pk);
    assert c.session.suite.verify(c.session.suite.sign(key.sk, d), key.pk, d);
  }

  // And in another session the same message is refused, unless the hash collides or the
  // signature is one on two digests.
  lemma KeyLoginElsewhereFails(c: Client, s: Server, key: KeyPair, a: Answers)
    requires c.session.suite == s.session.suite && Matching(c.session.suite, key)
    requires |c.session.sid| == |s.session.sid| && c.session.sid != s.session.sid
    requires Digest(c.session, c.user, key.pk) == Digest(s.session, s.user, key.pk) ==>
               SignedInput(c.session.sid, c.user, key.pk) == SignedInput(s.session.sid, s.user, key.pk)
    requires var sig, suite := KeyLogin(c, key).sig, c.session.suite;
             forall d, e :: suite.verify(sig, key.pk, d) && suite.verify(sig, key.pk, e) ==> d == e
    requires Ok(s) && s.state == Pending
    ensures Feed(s, KeyLogin(c, key), a).0.state != Admitted
  {
    hide Text, SignedInput, Handle, Ok;
    var sig, d := KeyLogin(c, key).sig, Digest(c.session, c.user, key.pk);
    assert c.session.suite.verify(c.session.suite.sign(key.sk, d), key.pk, d);
    if SignedFor(s.session, s.user, key.pk, sig) {
      SignatureIsBound(c.session, c.user, s.session, s.user, key.pk, sig);
    }
    AdmittedExactlyBy(s, Receives(KeyLogin(c, key), a));
  }
}
