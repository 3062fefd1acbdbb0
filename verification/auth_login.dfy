// Whole logins: what each call of the client's application and each reply of the server leads
// to at the other end, and how a conversation by password, key, form or registration ends.
module AuthLogin {
  import opened Bytes
  import opened Wrappers
  import opened AuthServer
  import opened AuthSession

  // ----- a call of the client, as the server takes it -----

  // The greeting makes a fresh server know the client by its name, and offer what it has for it.
  lemma GreetingIsAnswered(c: Client, s: Server, a: Answers)
    requires c.state == Pending && |c.user| <= MAX_USER && s.state == Pending && !s.greeted
    ensures var (c', out) := Do(c, Greets);
            && c' == c && |out| == 1
            && var (s', said) := Feed(s, out[0], a);
               && s'.greeted && s'.user == c.user && s'.avail == a.methods && said == [SayMethods(a.methods)]
               && s'.state == (if a.methods == {} then Denied else Pending)
               && s'.tries == s.tries && s'.run == s.run && s'.session == s.session && s'.tally == s.tally
  {
  }

  // A name of at most 64 bytes is taken whole, up to its end, and a longer one cut off there.
  lemma NameIsWhole(user: bytes)
    requires 0 !in user
    ensures Signee(user) == if |user| <= 64 then user else user[..64]
  {
    NoEnd(user);
  }

  lemma {:induction false} NoEnd(user: bytes)
    requires 0 !in user
    ensures Text(user) == user
  {
    if user != [] {
      NoEnd(user[1..]);
    }
  }

  // Out of turn: a second greeting or a name too long; anything before the greeting; keys,
  // signatures and passwords of the wrong size; a second method, or one of no kind known;
  // answers or a cancel with nothing running; answers nobody takes or that do not parse.
  predicate OutOfTurn(s: Server, m: Msg, a: Answers) {
    match m
    case MsgHello(user) => s.greeted || |user| > 64
    case MsgPublicKey(pk, sig) => !s.greeted || |pk| != 32 || |sig| != 64
    case MsgPassword(pass) => !s.greeted || |pass| >= MAX_PASS
    case MsgBegin(kind, _) => !s.greeted || s.run.kind.Some? || kind !in {Register, Interactive}
    case MsgSubmit => s.run.kind.None? || !a.submits || !a.decodes
    case MsgCancel => s.run.kind.None?
    case Garbled => true
  }

  // What is out of turn ends the login without a word; everything else is answered in one.
  lemma OutOfTurnEnds(s: Server, m: Msg, a: Answers)
    requires s.state == Pending
    ensures if OutOfTurn(s, m, a) then Feed(s, m, a) == (s.(state := Denied), []) else |Feed(s, m, a).1| == 1
  {
    hide End, SignedFor, Text;
  }

  // A method that is not on offer, or that the application does not run, is refused: it costs
  // a try and spends nothing.
  lemma NotOnOffer(s: Server, m: Msg, a: Answers)
    requires Ok(s) && s.state == Pending && s.greeted && !OutOfTurn(s, m, a)
    requires match m
             case MsgPublicKey(_, _) => PublicKey !in s.avail
             case MsgPassword(_) => Password !in s.avail
             case MsgBegin(kind, _) => kind !in s.avail || !a.interactive
             case _ => false
    ensures RefusedOnce(s, Feed(s, m, a), {}) && Feed(s, m, a).0.run == s.run && Feed(s, m, a).0.tally == s.tally
  {
    hide End, Decide, SignedFor, Text;
  }

  // Refused once: the methods named are no longer on offer, the try is counted, and the sixth
  // one or the last method ends the login.
  ghost predicate RefusedOnce(s: Server, r: (Server, seq<Reply>), spent: set<Method>) {
    && r.0.tries == s.tries + 1
    && (if s.tries + 1 == MAX_TRIES || s.avail - spent == {}
        then r.0.state == Denied && r.0.avail == {} else r.0.state == Pending && r.0.avail == s.avail - spent)
    && r.1 == [SayFail(r.0.avail)]
    && r.0.user == s.user && r.0.greeted == s.greeted && r.0.session == s.session
  }

  // A password supplied reaches the server as it is: it admits the client exactly when the
  // application says it is the name's, and otherwise passwords are spent.
  lemma PasswordDecides(c: Client, s: Server, pass: bytes, a: Answers)
    requires c.need == NeedPassword && |pass| < MAX_PASS
    requires Ok(s) && s.state == Pending && s.greeted && Password in s.avail
    ensures var (c', out) := Do(c, SuppliesPassword(Some(pass)));
            && c' == c.(need := Nothing) && |out| == 1
            && var r := Feed(s, out[0], a);
               if a.checkPassword(Text(s.user), Text(pass)) then r == (s.(state := Admitted), [SayOk])
               else RefusedOnce(s, r, {Password}) && r.0.run == s.run && r.0.tally == s.tally
  {
    hide Text;
  }

  // So does a key: signed by its pair for this session and name, it admits the client exactly
  // when the application knows it for the name.
  lemma KeyDecides(c: Client, s: Server, key: KeyPair, a: Answers)
    requires c.need == NeedKey && c.session == s.session && Matching(c.session.suite, key)
    requires Ok(s) && s.state == Pending && s.greeted && s.user == c.user && PublicKey in s.avail
    ensures var (c', out) := Do(c, SuppliesKey(Some(key)));
            && c' == c.(need := Nothing) && |out| == 1
            && var r := Feed(s, out[0], a);
               if a.checkKey(Text(s.user), key.pk) then r == (s.(state := Admitted), [SayOk])
               else RefusedOnce(s, r, {PublicKey}) && r.0.run == s.run && r.0.tally == s.tally
  {
    hide Text, SignedInput;
    var d := Digest(c.session, c.user, key.pk);
    assert c.session.suite.verify(c.session.suite.sign(key.sk, d), key.pk, d);
  }

  // What becomes of a running method when the application has decided.
  ghost predicate Settled(s: Server, v: Verdict, methods: set<Method>, r: (Server, seq<Reply>))
    requires s.run.kind.Some?
  {
    var (s', said), kind := r, s.run.kind.value;
    match v
    case More(form, encodes) =>
      if form && encodes then r == (s, [SayForm])
      else RefusedOnce(s, r, {kind}) && s'.run.kind.None? && s'.tally.completed == s.tally.completed
           && (if form then s'.tally.refused == s.tally.refused + 1 && s'.tally.cancelled == s.tally.cancelled
               else s'.tally.cancelled == s.tally.cancelled + 1 && s'.tally.refused == s.tally.refused)
    case Wait => r == (s, [SayWait])
    case Done =>
      && s'.run.kind.None? && s'.tally == s.tally.(completed := s.tally.completed + 1)
      && s'.user == s.user && s'.tries == s.tries && s'.session == s.session
      && if kind == Interactive then s'.state == Admitted && said == [SayOk]
         else s'.avail == methods && said == [SayMethods(methods)] && (s'.state == Denied <==> methods == {})
              && s'.state != Admitted
    case Refuse =>
      RefusedOnce(s, r, {kind}) && s'.run.kind.None?
      && s'.tally == s.tally.(refused := s.tally.refused + 1)
  }

  lemma DecideSettles(s: Server, v: Verdict, methods: set<Method>)
    requires Ok(s) && s.state == Pending && s.run.kind.Some?
    ensures Settled(s, v, methods, Decide(s, v, methods))
  {
  }

  // A choice of a method on offer begins it there, and its first verdict settles it; a
  // resumption token that is not taken cancels it.
  lemma ChoiceBegins(c: Client, s: Server, chosen: set<Method>, a: Answers)
    requires c.need == NeedMethod && c.avail * chosen * QUESTIONS != {}
    requires Ok(s) && s.state == Pending && s.greeted && s.run.kind.None? && s.avail == c.avail && a.interactive
    ensures var (c', out) := Do(c, SuppliesMethod(chosen));
            var kind := if Register in c.avail * chosen then Register else Interactive;
            && c'.running == Some(kind) && c'.need == Nothing && c'.state == c.state && |out| == 1
            && var s1 := s.(run := Running(Some(kind), false), tally := s.tally.(begun := s.tally.begun + 1));
               if c.token && !a.resumes
               then RefusedOnce(s1, Feed(s, out[0], a), {kind})
                    && Feed(s, out[0], a).0.tally.cancelled == s.tally.cancelled + 1
               else Settled(s1, a.verdict, a.methods, Feed(s, out[0], a))
  {
    hide Decide, Deny, End;
    var kind := if Register in c.avail * chosen then Register else Interactive;
    assert kind in c.avail * chosen * QUESTIONS;
    assert kind in chosen * QUESTIONS * c.avail;
    var s1 := s.(run := Running(Some(kind), false), tally := s.tally.(begun := s.tally.begun + 1));
    DecideSettles(s1, a.verdict, a.methods);
    ResumeRefused(s1);
  }

  lemma ResumeRefused(s: Server)
    requires Ok(s) && s.state == Pending && s.run.kind.Some?
    ensures RefusedOnce(s, Deny(End(s), Spent(s)), {s.run.kind.value})
    ensures Deny(End(s), Spent(s)).0.tally.cancelled == s.tally.cancelled + 1
  {
  }

  // A submission reaches the running method, and its verdict settles it.
  lemma SubmissionReaches(c: Client, s: Server, a: Answers)
    requires c.need == NeedForm
    requires Ok(s) && s.state == Pending && s.run.kind.Some? && a.submits && a.decodes
    ensures var (c', out) := Do(c, Submits(true, true));
            c' == c.(need := Nothing) && |out| == 1 && Settled(s, a.verdict, a.methods, Feed(s, out[0], a))
  {
    hide Decide;
    DecideSettles(s, a.verdict, a.methods);
  }

  // Giving up, by call or by an empty submission, cancels it: the application is told once, and
  // the methods are offered afresh.
  lemma GivingUpCancels(c: Client, s: Server, a: Answers, call: Call)
    requires c.running.Some? && !c.cancelling
    requires call == GivesUp || (c.need == NeedForm && call == Submits(false, false))
    requires Ok(s) && s.state == Pending && s.run.kind.Some?
    ensures var (c', out) := Do(c, call);
            && c'.cancelling && c'.need == Nothing && !c'.token && c'.state == c.state && |out| == 1
            && var (s', said) := Feed(s, out[0], a);
               && s'.run.kind.None? && s'.tally == s.tally.(cancelled := s.tally.cancelled + 1)
               && s'.avail == a.methods && said == [SayMethods(a.methods)] && (s'.state == Denied <==> a.methods == {})
               && s'.state != Admitted && s'.tries == s.tries
  {
  }

  predicate Unasked(c: Client, call: Call) {
    match call
    case SuppliesKey(_) => c.need != NeedKey
    case SuppliesPassword(_) => c.need != NeedPassword
    case Submits(_, _) => c.need != NeedForm
    case GivesUp => c.running.None? || c.cancelling
    case Greets => c.state != Pending
    case SuppliesMethod(_) => false
  }

  // Answers that cannot be encoded end the login, and a call the client is not waiting for does
  // nothing.
  lemma OutOfPlace(c: Client, call: Call)
    ensures c.need == NeedForm && call == Submits(true, false) ==>
              Do(c, call).0.state == Denied && Do(c, call).0.need == Nothing && Do(c, call).1 == []
    ensures Unasked(c, call) ==> Do(c, call) == (c, [])
  {
  }

  // ----- a reply of the server, as the client takes it -----

  // A client that asks the player nothing logs in with a key, then with a password.
  ghost predicate AsksCredential(c: Client, left: set<Method>) {
    if PublicKey in left then c.state == Pending && c.need == NeedKey && c.avail == left - {PublicKey}
    else if Password in left then c.state == Pending && c.need == NeedPassword && c.avail == left - {Password}
    else c.state == Denied
  }

  // What a client with these methods left asks of its application.
  ghost predicate Asks(c: Client, left: set<Method>) {
    if left * QUESTIONS != {} then c.state == Pending && c.need == NeedMethod && c.avail == left
    else AsksCredential(c, left)
  }

  // With no choice made beforehand, an offer or a refusal leads to exactly the method asked for
  // next: what only the player can answer, then the key, then the password, then no more.
  lemma ReplyAsksNext(c: Client, r: Reply, decodes: bool, token: bool)
    requires c.state == Pending && c.choice.chosen.None? && (r.SayMethods? || r.SayFail?)
    ensures var (c', out) := ClientFeed(c, r, decodes, token);
            && out == [] && Asks(c', if r.SayMethods? then r.avail else c.avail * r.avail)
            && c'.running.None? && !c'.cancelling && c'.user == c.user
  {
  }

  // A credential the application does not have, or one too long, is passed over.
  lemma WithoutCredential(c: Client, call: Call)
    requires c.state == Pending && c.choice == Choice(true, None)
    requires (c.need == NeedKey && call == SuppliesKey(None))
          || (c.need == NeedPassword && call.SuppliesPassword? && (call.pass.None? || |call.pass.value| >= MAX_PASS))
    ensures var (c', out) := Do(c, call); out == [] && AsksCredential(c', c.avail)
  {
  }

  // A player who wants none of the methods offered to choose from logs in with what is left.
  lemma ChoosesNoQuestion(c: Client, chosen: set<Method>)
    requires c.state == Pending && c.need == NeedMethod && chosen != {} && chosen * QUESTIONS == {}
    ensures var (c', out) := Do(c, SuppliesMethod(chosen)); out == [] && c'.choice.asked && AsksCredential(c', c.avail)
  {
    hide TryNext;
    var c1 := c.(choice := Choice(true, None), need := Nothing);
    TriesCredential(c1);
    assert Choose(c.(choice := c.choice.(chosen := Some(chosen)), need := Nothing)) == TryNext(c1);
  }

  lemma TriesCredential(c: Client)
    requires c.state == Pending && c.choice == Choice(true, None)
    ensures var (c', out) := TryNext(c); out == [] && c'.choice == c.choice && AsksCredential(c', c.avail)
  {
  }

  // One who wants nothing at all is denied; one who wants what is not on offer is asked again.
  lemma ChoosesNothing(c: Client, chosen: set<Method>)
    requires c.state == Pending && c.need == NeedMethod
    requires chosen == {} || (chosen * QUESTIONS != {} && chosen * QUESTIONS * c.avail == {})
    ensures var (c', out) := Do(c, SuppliesMethod(chosen));
            out == [] && if chosen == {} then c'.state == Denied else c'.state == Pending && c'.need == NeedMethod
  {
  }

  // An answer given before the question was asked is put to use when it would be.
  lemma EarlyChoice(c: Client, chosen: set<Method>, r: Reply, d: bool)
    requires c.state == Pending && c.choice.chosen.None? && c.need != NeedMethod
    requires (r.SayMethods? && r.avail * QUESTIONS != {}) || (r.SayFail? && c.avail * r.avail * QUESTIONS != {})
    ensures ClientFeed(Do(c, SuppliesMethod(chosen)).0, r, d, d)
         == Do(ClientFeed(c, r, d, d).0, SuppliesMethod(chosen))
  {
    hide TryNext;
    var left := if r.SayMethods? then r.avail else c.avail * r.avail;
    var c1 := c.(registered := c.registered || (r.SayMethods? && c.running == Some(Register) && !c.cancelling),
                 running := None, cancelling := false, choice := Choice(false, Some(chosen)), avail := left);
    assert ClientFeed(Do(c, SuppliesMethod(chosen)).0, r, d, d) == TryNext(c1);
    AskedOrChosen(c1);
    ChoosesAfresh(c1);
  }

  lemma AskedOrChosen(c: Client)
    requires c.state == Pending && c.choice == Choice(false, c.choice.chosen) && c.avail * QUESTIONS != {}
    requires c.choice.chosen.Some?
    ensures TryNext(c) == Choose(c)
    ensures TryNext(c.(choice := Choice(false, None))) == (c.(choice := Choice(false, None), need := NeedMethod), [])
  {
    hide Choose;
  }

  lemma ChoosesAfresh(c: Client)
    requires c.state == Pending && c.choice.chosen.Some?
    ensures Choose(c) == Choose(c.(need := Nothing))
  {
    hide TryNext;
    NeedForgotten(c.(choice := Choice(true, None)));
  }

  lemma NeedForgotten(c: Client)
    requires c.state == Pending && c.choice == Choice(true, None)
    ensures TryNext(c) == TryNext(c.(need := Nothing))
  {
    hide Choose;
  }

  // A form asks for answers exactly while a method runs that is not being given up; a wait asks
  // for nothing; one that does not parse, or comes unasked, ends the login.
  lemma FormAsks(c: Client, r: Reply, decodes: bool, token: bool)
    requires c.state == Pending && (r.SayForm? || r.SayWait?)
    ensures var (c', out) := ClientFeed(c, r, decodes, token);
            && out == []
            && if c.cancelling then c' == c
               else if c.running.None? || !decodes || (r.SayForm? && c.need == NeedForm) then c'.state == Denied
               else c'.state == Pending && c'.running == c.running
                    && (if r.SayForm? then c'.need == NeedForm && c'.token == c.token
                        else c'.need == Nothing && c'.token == (c.token || token))
  {
  }

  lemma OkAdmits(c: Client, decodes: bool, token: bool)
    requires c.state == Pending
    ensures ClientFeed(c, SayOk, decodes, token) == (c.(state := Admitted), [])
  {
  }

  // ----- whole conversations -----

  // Both ends have come to the same end.
  predicate Both(s: Sys, state: State) {
    s.client.state == state && s.server.state == state
  }

  // A call of the client, read and answered.
  function Round(call: Call, a: Answers, d: bool): seq<Move> {
    [Calls(call), ServerReads(a), ClientReads(d, d)]
  }

  // Each end saying one thing, nothing is left on the way.
  lemma RoundTrip(s: Sys, call: Call, a: Answers, d: bool)
    requires s.up == [] && s.down == []
    requires |Do(s.client, call).1| == 1 && |Feed(s.server, Do(s.client, call).1[0], a).1| == 1
    requires var (v, said) := Feed(s.server, Do(s.client, call).1[0], a);
             ClientFeed(Do(s.client, call).0, said[0], d, d).1 == []
    ensures var (v, said) := Feed(s.server, Do(s.client, call).1[0], a);
            PlayAll(s, Round(call, a, d)) == Sys(ClientFeed(Do(s.client, call).0, said[0], d, d).0, v, [], [])
  {
    hide Do, Feed, ClientFeed;
    var ms := Round(call, a, d);
    var (c, out) := Do(s.client, call);
    var (v, said) := Feed(s.server, out[0], a);
    assert ms[1..] == [ms[1], ms[2]] && ms[1..][1..] == [ms[2]] && ms[1..][1..][1..] == [];
    var s1 := Play(s, ms[0]);
    assert s1 == Sys(c, s.server, out, []);
    var s2 := Play(s1, ms[1]);
    assert s2 == Sys(c, v, [], said);
    var s3 := Play(s2, ms[2]);
    assert s3 == Sys(ClientFeed(c, said[0], d, d).0, v, [], []);
    assert PlayAll(s, ms) == PlayAll(s1, ms[1..]) == PlayAll(s2, ms[1..][1..]) == PlayAll(s3, []);
  }

  // The methods a client can use; bits it does not know may come along in an offer.
  const KNOWN := QUESTIONS + {PublicKey, Password}

  // Both ends wait for the application, with these methods left.
  ghost predicate Between(s: Sys, left: set<Method>) {
    && s.up == [] && s.down == [] && left * KNOWN != {} && s.client.state == Pending
    && Asks(s.client, left) && s.client.choice == Choice(false, None) && s.client.running.None?
    && !s.client.cancelling && !s.client.token
    && Ok(s.server) && s.server.state == Pending && s.server.greeted && s.server.user == s.client.user
    && s.server.avail == left && s.server.run.kind.None?
  }

  // Greeting, offer, and what the client asks for then.
  lemma Opening(mine: Session, theirs: Session, user: bytes, a: Answers, d: bool)
    requires a.methods * KNOWN != {}
    ensures var s := PlayAll(Outset(mine, theirs, user), Round(Greets, a, d));
            && Between(s, a.methods) && s.server.tries == 0
            && s.client.session == mine && s.server.session == theirs && s.client.user == Signee(user)
  {
    hide Signee, Do, Feed, ClientFeed, Asks, PlayAll;
    var s := Outset(mine, theirs, user);
    GreetingIsAnswered(s.client, s.server, a);
    StaysOk(s.server, Do(s.client, Greets).1[0], a);
    OfferKeeps(s.client, SayMethods(a.methods), d);
    ReplyAsksNext(s.client, SayMethods(a.methods), d, d);
    AsksSomething(Do(s.client, Greets).0, a.methods, d);
    RoundTrip(s, Greets, a, d);
  }

  lemma AsksSomething(c: Client, methods: set<Method>, d: bool)
    requires c.state == Pending && c.choice.chosen.None? && methods * KNOWN != {}
    ensures ClientFeed(c, SayMethods(methods), d, d).0.state == Pending
  {
    var m :| m in methods * KNOWN;
    assert m in QUESTIONS ==> m in methods * QUESTIONS;
    ReplyAsksNext(c, SayMethods(methods), d, d);
  }

  lemma StaysOk(s: Server, m: Msg, a: Answers)
    requires Ok(s) && s.state == Pending
    ensures Ok(Feed(s, m, a).0)
  {
    hide Feed;
    FeedOk(s, m, a);
  }

  lemma OfferKeeps(c: Client, r: Reply, d: bool)
    requires c.state == Pending && c.choice.chosen.None? && (r.SayMethods? || r.SayFail?)
    ensures var c' := ClientFeed(c, r, d, d).0;
            && c'.session == c.session && c'.token == c.token
            && c'.choice == Choice(false, None)
  {
  }

  // Main result for passwords: asked for one, a client and its server finish admitted exactly
  // when the application accepts what was supplied; otherwise nothing is left to ask for.
  lemma PasswordLogin(s: Sys, left: set<Method>, pass: bytes, a: Answers, d: bool)
    requires Between(s, left) && s.client.need == NeedPassword && |pass| < MAX_PASS
    ensures var s' := PlayAll(s, Round(SuppliesPassword(Some(pass)), a, d));
            if a.checkPassword(Text(s.client.user), Text(pass)) then Both(s', Admitted)
            else s'.client.state == Denied && s'.server.state != Admitted && s'.server.avail * KNOWN == {}
  {
    hide Text, Do, Feed, ClientFeed, PlayAll;
    assert Password in left && (left - {Password}) * KNOWN == {} by { OnlyPassword(left); }
    PasswordDecides(s.client, s.server, pass, a);
    var (c, out) := Do(s.client, SuppliesPassword(Some(pass)));
    var (v, said) := Feed(s.server, out[0], a);
    if said[0] == SayOk { OkAdmits(c, d, d); } else { NothingLeft(c, said[0], d); }
    RoundTrip(s, SuppliesPassword(Some(pass)), a, d);
  }

  lemma OnlyPassword(left: set<Method>)
    requires left * QUESTIONS == {} && PublicKey !in left
    ensures (left - {Password}) * KNOWN == {}
  {
    forall m | m in left - {Password} ensures m !in KNOWN { assert m in QUESTIONS ==> m in left * QUESTIONS; }
  }

  lemma NothingLeft(c: Client, r: Reply, d: bool)
    requires c.state == Pending && c.choice.chosen.None? && r.SayFail? && c.avail * KNOWN == {}
    ensures ClientFeed(c, r, d, d).0.state == Denied && ClientFeed(c, r, d, d).1 == []
  {
    var left := c.avail * r.avail;
    forall m | m in left ensures m !in KNOWN { assert m in KNOWN ==> m in c.avail * KNOWN; }
    assert left * QUESTIONS == {};
    ReplyAsksNext(c, r, d, d);
  }

  // For keys, in one session: admitted exactly when the application knows the key, and
  // otherwise denied, or asked for the password if that is still on offer.
  lemma KeyThenPassword(s: Sys, left: set<Method>, key: KeyPair, a: Answers, d: bool)
    requires Between(s, left) && s.client.need == NeedKey && s.server.tries + 1 < MAX_TRIES
    requires s.client.session == s.server.session && Matching(s.client.session.suite, key)
    ensures var s' := PlayAll(s, Round(SuppliesKey(Some(key)), a, d));
            if a.checkKey(Text(s.client.user), key.pk) then Both(s', Admitted)
            else if Password in left then Between(s', left - {PublicKey}) && s'.client.need == NeedPassword
            else s'.client.state == Denied && s'.server.state != Admitted
  {
    hide Text, Do, Feed, ClientFeed, PlayAll, Matching, Ok;
    var rest := left - {PublicKey};
    assert PublicKey in left && rest * QUESTIONS == {} by { OnlyKeys(left); }
    KeyDecides(s.client, s.server, key, a);
    var (c, out) := Do(s.client, SuppliesKey(Some(key)));
    var (v, said) := Feed(s.server, out[0], a);
    StaysOk(s.server, out[0], a);
    if said[0] == SayOk {
      OkAdmits(c, d, d);
    } else if Password in left {
      assert c.avail == rest && c.avail * v.avail == rest && Password in rest * KNOWN;
      ReplyAsksNext(c, said[0], d, d);
      OfferKeeps(c, said[0], d);
    } else {
      assert rest * KNOWN == {} by { NoPassword(left); }
      NothingLeft(c, said[0], d);
    }
    RoundTrip(s, SuppliesKey(Some(key)), a, d);
  }

  lemma OnlyKeys(left: set<Method>)
    requires left * QUESTIONS == {}
    ensures (left - {PublicKey}) * QUESTIONS == {}
  {
    assert (left - {PublicKey}) * QUESTIONS <= left * QUESTIONS;
  }

  lemma NoPassword(left: set<Method>)
    requires left * QUESTIONS == {} && Password !in left
    ensures (left - {PublicKey}) * KNOWN == {}
  {
    forall m | m in left - {PublicKey} ensures m !in KNOWN { assert m in QUESTIONS ==> m in left * QUESTIONS; }
  }

  // A method of forms is running at both ends, its form shown to the player.
  ghost predicate Filling(s: Sys, kind: Method) {
    && s.up == [] && s.down == [] && kind in QUESTIONS
    && s.client.state == Pending && s.client.need == NeedForm && s.client.running == Some(kind)
    && !s.client.cancelling && s.client.choice.chosen.None?
    && Ok(s.server) && s.server.state == Pending && s.server.run.kind == Some(kind)
    && s.server.greeted && s.server.user == s.client.user
  }

  // Chosen, it shows the application's form.
  lemma FormShown(s: Sys, left: set<Method>, kind: Method, a: Answers)
    requires Between(s, left) && kind in left * QUESTIONS && a.interactive && a.verdict == More(true, true)
    ensures Filling(PlayAll(s, Round(SuppliesMethod({kind}), a, true)), kind)
  {
    hide Do, Feed, ClientFeed, PlayAll, Ok;
    assert left * {kind} * QUESTIONS == {kind} && left * {kind} == {kind};
    ChoiceBegins(s.client, s.server, {kind}, a);
    ChoiceKeeps(s.client, {kind});
    var (c, out) := Do(s.client, SuppliesMethod({kind}));
    StaysOk(s.server, out[0], a);
    FormAsks(c, SayForm, true, true);
    FormKeeps(c);
    RoundTrip(s, SuppliesMethod({kind}), a, true);
  }

  // Answered, it is shown again, or refused, or done: an interactive login then admits both
  // ends, and a registration leaves the client with an account and the methods offered next.
  lemma FormAnswered(s: Sys, kind: Method, a: Answers)
    requires Filling(s, kind) && a.submits && a.decodes && a.verdict != Wait
    ensures var s' := PlayAll(s, Round(Submits(true, true), a, true));
            if a.verdict == More(true, true) then Filling(s', kind)
            else if a.verdict == Done && kind == Interactive then Both(s', Admitted)
            else if a.verdict == Done then
              && s'.server.avail == a.methods && s'.client.registered
              && if a.methods == {} then Both(s', Denied) else s'.server.state == Pending && Asks(s'.client, a.methods)
            else s'.server.tries == s.server.tries + 1 && s'.server.state != Admitted && kind !in s'.server.avail
  {
    hide Do, Feed, ClientFeed, PlayAll, Ok, Asks;
    SubmissionReaches(s.client, s.server, a);
    var (c, out) := Do(s.client, Submits(true, true));
    var (v, said) := Feed(s.server, out[0], a);
    StaysOk(s.server, out[0], a);
    match said[0] {
      case SayForm => FormAsks(c, SayForm, true, true); FormKeeps(c);
      case SayOk => OkAdmits(c, true, true);
      case SayMethods(methods) =>
        ReplyAsksNext(c, said[0], true, true);
        RegisteredNoted(c, methods);
        if methods == {} { NoneOffered(c); }
      case SayFail(_) => ReplyAsksNext(c, said[0], true, true);
      case SayWait => assert false;
    }
    RoundTrip(s, Submits(true, true), a, true);
  }

  lemma NoneOffered(c: Client)
    requires c.state == Pending
    ensures ClientFeed(c, SayMethods({}), true, true).0.state == Denied
  {
  }

  lemma ChoiceKeeps(c: Client, chosen: set<Method>)
    requires c.state == Pending && c.need == NeedMethod && c.avail * chosen * QUESTIONS != {} && !c.cancelling
    ensures var c' := Do(c, SuppliesMethod(chosen)).0;
            c'.choice.chosen.None? && !c'.cancelling && c'.state == Pending && c'.need == Nothing && c'.user == c.user
  {
    var m :| m in c.avail * chosen * QUESTIONS;
    assert m in chosen * QUESTIONS * c.avail && m in chosen * QUESTIONS;
  }

  lemma FormKeeps(c: Client)
    requires c.state == Pending && !c.cancelling && c.running.Some? && c.need != NeedForm
    ensures ClientFeed(c, SayForm, true, true).0 == c.(need := NeedForm)
  {
  }

  // The client learns that it has an account exactly from an offer that ends a registration it
  // did not give up.
  lemma RegisteredNoted(c: Client, methods: set<Method>)
    requires c.state == Pending && c.choice.chosen.None?
    ensures ClientFeed(c, SayMethods(methods), true, true).0.registered
       <==> c.registered || (c.running == Some(Register) && !c.cancelling)
  {
  }
}
