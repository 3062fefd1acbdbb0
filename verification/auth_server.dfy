// The server side of a login: which messages lead to OK, how often it says no, and what
// becomes of every interactive method it begins. The hash and the signature scheme are
// parameters; callbacks are answers the steps are given.
module AuthServer {
  import opened Bytes
  import opened Wrappers

  const MAX_TRIES := 6
  const MAX_USER := 64
  const MAX_PASS := 128
  const KEY_LEN := 32
  const SIG_LEN := 64

  datatype Method = PublicKey | Password | Register | Interactive | Spare(bit: nat)

  datatype State = Pending | Admitted | Denied

  // What the peer sends; a frame that does not parse is Garbled.
  datatype Msg =
    | MsgHello(user: bytes)
    | MsgPublicKey(pk: bytes, sig: bytes)
    | MsgPassword(pass: bytes)
    | MsgBegin(kind: Method, token: bool)
    | MsgSubmit
    | MsgCancel
    | Garbled

  datatype Reply = SayMethods(avail: set<Method>) | SayOk | SayFail(avail: set<Method>) | SayForm | SayWait

  // The hash, signing with a secret key, and checking a signature by a public key on a digest.
  datatype Suite = Suite(hash: bytes -> bytes, sign: (bytes, bytes) -> bytes, verify: (bytes, bytes, bytes) -> bool)

  // The session a login is bound to.
  datatype Session = Session(suite: Suite, sid: bytes)

  // What an interactive callback decides. A form may be missing, or not encode.
  datatype Verdict = More(form: bool, encodes: bool) | Wait | Done | Refuse

  // The application's answers during one step; checkKey and checkPassword are asked about a
  // name and a key, a name and a password.
  datatype Answers = Answers(methods: set<Method>, checkKey: (bytes, bytes) -> bool, checkPassword: (bytes, bytes) -> bool,
                             interactive: bool, resumes: bool, submits: bool, decodes: bool, verdict: Verdict)

  // The method running, and whether its end has been reported.
  datatype Running = Running(kind: Option<Method>, fired: bool)

  // What has been begun and how it ended.
  datatype Tally = Tally(begun: nat, cancelled: nat, completed: nat, refused: nat)

  datatype Server = Server(session: Session, state: State, greeted: bool, user: bytes, avail: set<Method>, tries: nat,
                           run: Running, tally: Tally)

  function Start(session: Session): Server {
    Server(session, Pending, false, [], {}, 0, Running(None, false), Tally(0, 0, 0, 0))
  }

  // ----- what a key login signs -----

  // The bytes of a C string: up to the first NUL.
  function Text(b: bytes): (t: bytes)
    ensures |t| <= |b|
    ensures forall i :: 0 <= i < |t| ==> t[i] != 0
    ensures (forall i :: 0 <= i < |b| ==> b[i] != 0) ==> t == b
  {
    if b == [] || b[0] == 0 then [] else [b[0]] + Text(b[1..])
  }

  // "netchan-auth-v1" and its NUL
  const SIG_LABEL: bytes := [110, 101, 116, 99, 104, 97, 110, 45, 97, 117, 116, 104, 45, 118, 49, 0]

  // The name as it is signed: at most 64 bytes of it.
  function Signee(user: bytes): (n: bytes)
    ensures |n| <= MAX_USER
  {
    Text(user)[..Min(|Text(user)|, MAX_USER)]
  }

  function SignedInput(sid: bytes, user: bytes, pk: bytes): bytes {
    SIG_LABEL + sid + [|Signee(user)|] + Signee(user) + pk
  }

  function Digest(session: Session, user: bytes, pk: bytes): bytes {
    session.suite.hash(SignedInput(session.sid, user, pk))
  }

  // The signature is one by the key on this session, this name and this key.
  predicate SignedFor(session: Session, user: bytes, pk: bytes, sig: bytes) {
    session.suite.verify(sig, pk, Digest(session, user, pk))
  }

  // What is signed says which session, which name and which key.
  lemma InputIsInjective(sid: bytes, user: bytes, pk: bytes, sid': bytes, user': bytes, pk': bytes)
    requires |sid| == |sid'| && |pk| == |pk'|
    requires SignedInput(sid, user, pk) == SignedInput(sid', user', pk')
    ensures sid == sid' && Signee(user) == Signee(user') && pk == pk'
  {
    hide Signee;
    var x, n, l, m := SignedInput(sid, user, pk), |Signee(user)|, |SIG_LABEL|, |sid|;
    assert x[l + m] == n && SignedInput(sid', user', pk')[l + m] == |Signee(user')|;
    assert x[l..l + m] == sid && SignedInput(sid', user', pk')[l..l + m] == sid';
    assert x[l + m + 1..l + m + 1 + n] == Signee(user);
    assert SignedInput(sid', user', pk')[l + m + 1..l + m + 1 + n] == Signee(user');
    assert x[l + m + 1 + n..] == pk && SignedInput(sid', user', pk')[l + m + 1 + n..] == pk';
  }

  // Session binding: a signature accepted in two sessions was made for the same session and
  // the same name, provided the hash does not collide on the two inputs and the signature is
  // not one on two digests.
  lemma SignatureIsBound(a: Session, user: bytes, b: Session, user': bytes, pk: bytes, sig: bytes)
    requires a.suite == b.suite && |a.sid| == |b.sid|
    requires SignedFor(a, user, pk, sig) && SignedFor(b, user', pk, sig)
    requires a.suite.hash(SignedInput(a.sid, user, pk)) == a.suite.hash(SignedInput(b.sid, user', pk)) ==>
               SignedInput(a.sid, user, pk) == SignedInput(b.sid, user', pk)
    requires forall d, e :: a.suite.verify(sig, pk, d) && a.suite.verify(sig, pk, e) ==> d == e
    ensures a == b && Signee(user) == Signee(user')
  {
    hide Signee;
    assert Digest(a, user, pk) == Digest(b, user', pk);
    InputIsInjective(a.sid, user, pk, b.sid, user', pk);
  }

  // ----- the steps -----

  function Deny(s: Server, spent: set<Method>): (Server, seq<Reply>) {
    var avail, tries := s.avail - spent, s.tries + 1;
    if tries >= MAX_TRIES || avail == {} then (s.(avail := {}, tries := tries, state := Denied), [SayFail({})])
    else (s.(avail := avail, tries := tries), [SayFail(avail)])
  }

  function Offer(s: Server, methods: set<Method>): (Server, seq<Reply>) {
    (s.(avail := methods, state := if methods == {} then Denied else s.state), [SayMethods(methods)])
  }

  // The running method is over; unless already reported, the application is told.
  function End(s: Server): Server {
    s.(run := Running(None, s.run.fired || s.run.kind.Some?),
       tally := if s.run.kind.Some? && !s.run.fired then s.tally.(cancelled := s.tally.cancelled + 1) else s.tally)
  }

  function Spent(s: Server): set<Method> {
    if s.run.kind.Some? then {s.run.kind.value} else {}
  }

  function Refused(s: Server): Server {
    End(s.(run := s.run.(fired := true), tally := s.tally.(refused := s.tally.refused + 1)))
  }

  function Decide(s: Server, v: Verdict, methods: set<Method>): (Server, seq<Reply>) {
    match v
    case More(form, encodes) =>
      if !form then Deny(End(s), Spent(s))
      else if !encodes then Deny(Refused(s), Spent(s))
      else (s, [SayForm])
    case Wait => (s, [SayWait])
    case Done =>
      var s1 := s.(tally := s.tally.(completed := s.tally.completed + 1));
      if s.run.kind == Some(Register) then Offer(s1.(run := Running(None, false)), methods)
      else (s1.(run := Running(None, true), state := Admitted), [SayOk])
    case Refuse => Deny(Refused(s), Spent(s))
  }

  function Greet(s: Server, user: bytes, a: Answers): Option<(Server, seq<Reply>)> {
    if s.greeted || |user| > MAX_USER then None
    else Some(Offer(s.(user := user, greeted := true), a.methods))
  }

  // Possession of the key first, authorisation second.
  function TryKey(s: Server, pk: bytes, sig: bytes, a: Answers): Option<(Server, seq<Reply>)> {
    if !s.greeted || |pk| != KEY_LEN || |sig| != SIG_LEN then None
    else if PublicKey !in s.avail then Some(Deny(s, {}))
    else if SignedFor(s.session, s.user, pk, sig) && a.checkKey(Text(s.user), pk) then Some((s.(state := Admitted), [SayOk]))
    else Some(Deny(s, {PublicKey}))
  }

  function TryPassword(s: Server, pass: bytes, a: Answers): Option<(Server, seq<Reply>)> {
    if !s.greeted || |pass| > MAX_PASS - 1 then None
    else if Password !in s.avail then Some(Deny(s, {}))
    else if a.checkPassword(Text(s.user), Text(pass)) then Some((s.(state := Admitted), [SayOk]))
    else Some(Deny(s, {Password}))
  }

  function Begin(s: Server, m: Method, token: bool, a: Answers): Option<(Server, seq<Reply>)> {
    if !s.greeted || s.run.kind.Some? || (m != Register && m != Interactive) then None
    else if m !in s.avail || !a.interactive then Some(Deny(s, {}))
    else
      var s1 := s.(run := Running(Some(m), false), tally := s.tally.(begun := s.tally.begun + 1));
      if token && !a.resumes then Some(Deny(End(s1), Spent(s1))) else Some(Decide(s1, a.verdict, a.methods))
  }

  function Submit(s: Server, a: Answers): Option<(Server, seq<Reply>)> {
    if s.run.kind.None? || !a.submits || !a.decodes then None else Some(Decide(s, a.verdict, a.methods))
  }

  function Cancel(s: Server, a: Answers): Option<(Server, seq<Reply>)> {
    if s.run.kind.None? then None else Some(Offer(End(s), a.methods))
  }

  function Handle(s: Server, m: Msg, a: Answers): Option<(Server, seq<Reply>)> {
    match m
    case MsgHello(user) => Greet(s, user, a)
    case MsgPublicKey(pk, sig) => TryKey(s, pk, sig, a)
    case MsgPassword(pass) => TryPassword(s, pass, a)
    case MsgBegin(kind, token) => Begin(s, kind, token, a)
    case MsgSubmit => Submit(s, a)
    case MsgCancel => Cancel(s, a)
    case Garbled => None
  }

  // A protocol error ends the login without a word.
  function Feed(s: Server, m: Msg, a: Answers): (Server, seq<Reply>) {
    if s.state != Pending then (s, [])
    else
      match Handle(s, m, a)
      case None => (s.(state := Denied), [])
      case Some(r) => r
  }

  // The application resolves a wait.
  function Resume(s: Server, v: Verdict, methods: set<Method>): (Server, seq<Reply>) {
    if s.run.kind.None? || s.state != Pending then (s, []) else Decide(s, v, methods)
  }

  // Teardown: everything is wiped, after the running method was ended, and set up again for
  // another session. The tally is the application's own and survives.
  function Clear(s: Server, sid: bytes): Server {
    Start(s.session.(sid := sid)).(tally := End(s).tally)
  }

  datatype Event = Receives(m: Msg, a: Answers) | Resolves(v: Verdict, methods: set<Method>) | Clears(sid: bytes)

  function Step(s: Server, e: Event): (Server, seq<Reply>) {
    match e
    case Receives(m, a) => Feed(s, m, a)
    case Resolves(v, methods) => Resume(s, v, methods)
    case Clears(sid) => (Clear(s, sid), [])
  }

  // ----- what every step keeps -----

  // A running method is of a kind that can run and not yet reported; tries are left while
  // deciding; and every method begun is accounted for.
  ghost predicate Sound(s: Server) {
    && s.tries <= MAX_TRIES && (s.state == Pending ==> s.tries < MAX_TRIES)
    && (s.run.kind.Some? ==> s.greeted && s.run.kind.value in {Register, Interactive} && !s.run.fired)
    && s.tally.begun == s.tally.cancelled + s.tally.completed + s.tally.refused + Flag(s.run.kind.Some?)
  }

  // And a greeted server still deciding has something on offer.
  ghost predicate Ok(s: Server) {
    Sound(s) && (s.state == Pending && s.greeted ==> s.avail != {})
  }

  lemma DenyOk(s: Server, spent: set<Method>)
    requires Sound(s) && s.state == Pending
    ensures Ok(Deny(s, spent).0)
  {
  }

  lemma OfferOk(s: Server, methods: set<Method>)
    requires Sound(s)
    ensures Ok(Offer(s, methods).0)
  {
  }

  lemma EndSound(s: Server)
    requires Sound(s)
    ensures Sound(End(s)) && (s.run.kind.Some? ==> Sound(Refused(s)))
  {
  }

  lemma DecideOk(s: Server, v: Verdict, methods: set<Method>)
    requires Ok(s) && s.state == Pending && s.run.kind.Some?
    ensures Ok(Decide(s, v, methods).0)
  {
    hide Deny, Offer;
    EndSound(s);
    DenyOk(End(s), Spent(s));
    DenyOk(Refused(s), Spent(s));
    if v.Done? && s.run.kind == Some(Register) {
      OfferOk(s.(tally := s.tally.(completed := s.tally.completed + 1), run := Running(None, false)), methods);
    }
  }

  lemma FeedOk(s: Server, m: Msg, a: Answers)
    requires Ok(s) && s.state == Pending
    ensures Ok(Feed(s, m, a).0)
  {
    hide Deny, Offer, Decide, End, SignedFor;
    match m
    case MsgHello(user) => OfferOk(s.(user := user, greeted := true), a.methods);
    case MsgPublicKey(pk, sig) => DenyOk(s, {}); DenyOk(s, {PublicKey});
    case MsgPassword(pass) => DenyOk(s, {}); DenyOk(s, {Password});
    case MsgBegin(kind, token) =>
      DenyOk(s, {});
      if s.greeted && s.run.kind.None? && (kind == Register || kind == Interactive) {
        var s1 := s.(run := Running(Some(kind), false), tally := s.tally.(begun := s.tally.begun + 1));
        EndSound(s1);
        EndStays(s1);
        DenyOk(End(s1), Spent(s1));
        DecideOk(s1, a.verdict, a.methods);
      }
    case MsgSubmit => if s.run.kind.Some? { DecideOk(s, a.verdict, a.methods); }
    case MsgCancel => EndSound(s); OfferOk(End(s), a.methods);
    case Garbled =>
  }

  lemma EndStays(s: Server)
    ensures End(s).state == s.state && End(s).tries == s.tries && End(s).run.kind.None?
    ensures Refused(s).state == s.state && Refused(s).tries == s.tries
  {
  }

  lemma StepKeepsOk(s: Server, e: Event)
    requires Ok(s)
    ensures Ok(Step(s, e).0)
  {
    hide Feed, Decide, End;
    match e
    case Receives(m, a) => if s.state == Pending { FeedOk(s, m, a); } else { DecidedStays(s, e); }
    case Resolves(v, methods) => if s.run.kind.Some? && s.state == Pending { DecideOk(s, v, methods); }
    case Clears(sid) => EndSound(s); EndStays(s);
  }

  function Run(s: Server, es: seq<Event>): (Server, seq<Reply>)
    decreases |es|
  {
    if es == [] then (s, [])
    else
      var (s1, out) := Step(s, es[0]);
      var (s2, rest) := Run(s1, es[1..]);
      (s2, out + rest)
  }

  // Interactive accounting over every run: each method begun was cancelled, completed or
  // refused exactly once, or is still running.
  lemma {:induction false} MethodsAccounted(s: Server, es: seq<Event>)
    requires Ok(s)
    ensures Ok(Run(s, es).0)
    decreases |es|
  {
    hide Step, Ok;
    if es != [] {
      StepKeepsOk(s, es[0]);
      MethodsAccounted(Step(s, es[0]).0, es[1..]);
    }
  }

  // ----- how a login succeeds -----

  // The one step that may admit: a signature on this session, name and key, by a key
  // authorised for the name; the name's password; or the end of an interactive login that is
  // running or begins here.
  predicate Admits(s: Server, e: Event) {
    match e
    case Receives(MsgPublicKey(pk, sig), a) =>
      s.greeted && PublicKey in s.avail && |pk| == KEY_LEN && |sig| == SIG_LEN
      && SignedFor(s.session, s.user, pk, sig) && a.checkKey(Text(s.user), pk)
    case Receives(MsgPassword(pass), a) =>
      s.greeted && Password in s.avail && |pass| < MAX_PASS && a.checkPassword(Text(s.user), Text(pass))
    case Receives(MsgBegin(m, token), a) =>
      s.greeted && s.run.kind.None? && m == Interactive && m in s.avail && a.interactive
      && (token ==> a.resumes) && a.verdict == Done
    case Receives(MsgSubmit, a) => s.run.kind == Some(Interactive) && a.submits && a.decodes && a.verdict == Done
    case Resolves(v, methods) => s.run.kind == Some(Interactive) && v == Done
    case _ => false
  }

  // What a step's outcome keeps of the name and the session, and whether it admits.
  ghost predicate Stands(s: Server, r: (Server, seq<Reply>), admits: bool) {
    && r.0.user == s.user && r.0.session == s.session
    && (r.0.state == Admitted <==> admits) && (SayOk in r.1 <==> admits)
  }

  lemma DenyStands(s: Server, spent: set<Method>)
    requires s.state == Pending
    ensures Stands(s, Deny(s, spent), false)
  {
  }

  lemma OfferStands(s: Server, methods: set<Method>)
    requires s.state == Pending
    ensures Stands(s, Offer(s, methods), false)
  {
  }

  lemma DecideStands(s: Server, v: Verdict, methods: set<Method>)
    requires s.state == Pending && s.run.kind.Some? && s.run.kind.value in {Register, Interactive}
    ensures Stands(s, Decide(s, v, methods), v.Done? && s.run.kind == Some(Interactive))
  {
    hide Deny, Offer;
    DenyStands(End(s), Spent(s));
    DenyStands(Refused(s), Spent(s));
    OfferStands(s.(tally := s.tally.(completed := s.tally.completed + 1), run := Running(None, false)), methods);
  }

  lemma BeginStands(s: Server, m: Method, token: bool, a: Answers)
    requires s.state == Pending && Begin(s, m, token, a).Some?
    ensures Stands(s, Begin(s, m, token, a).value, Admits(s, Receives(MsgBegin(m, token), a)))
  {
    hide Deny, Decide, End;
    DenyStands(s, {});
    var s1 := s.(run := Running(Some(m), false), tally := s.tally.(begun := s.tally.begun + 1));
    EndStays(s1);
    EndNames(s1);
    DenyStands(End(s1), Spent(s1));
    DecideStands(s1, a.verdict, a.methods);
  }

  lemma EndNames(s: Server)
    ensures End(s).user == s.user && End(s).session == s.session
  {
  }

  lemma KeyStands(s: Server, pk: bytes, sig: bytes, a: Answers)
    requires s.state == Pending && TryKey(s, pk, sig, a).Some?
    ensures Stands(s, TryKey(s, pk, sig, a).value, Admits(s, Receives(MsgPublicKey(pk, sig), a)))
  {
    hide Deny, SignedFor, Text;
    DenyStands(s, {});
    DenyStands(s, {PublicKey});
  }

  lemma PasswordStands(s: Server, pass: bytes, a: Answers)
    requires s.state == Pending && TryPassword(s, pass, a).Some?
    ensures Stands(s, TryPassword(s, pass, a).value, Admits(s, Receives(MsgPassword(pass), a)))
  {
    hide Deny, Text;
    DenyStands(s, {});
    DenyStands(s, {Password});
  }

  // A deciding server becomes OK exactly by such a step; a finished registration never does
  // it. It says OK exactly then, and the step changes neither name nor session.
  lemma AdmittedExactlyBy(s: Server, e: Event)
    requires Ok(s) && s.state == Pending
    ensures var r := Step(s, e);
            && (r.0.state == Admitted <==> Admits(s, e)) && (SayOk in r.1 <==> Admits(s, e))
            && (Admits(s, e) ==> s.greeted && r.0.user == s.user && r.0.session == s.session)
  {
    hide Deny, Offer, Decide, End, TryKey, TryPassword, Begin, SignedFor, Text;
    match e
    case Receives(m, a) =>
      match m {
        case MsgHello(user) => OfferStands(s.(user := user, greeted := true), a.methods);
        case MsgPublicKey(pk, sig) =>
          if TryKey(s, pk, sig, a).Some? { KeyStands(s, pk, sig, a); } else { KeyRefused(s, pk, sig, a); }
        case MsgPassword(pass) =>
          if TryPassword(s, pass, a).Some? { PasswordStands(s, pass, a); } else { PasswordRefused(s, pass, a); }
        case MsgBegin(kind, token) =>
          if Begin(s, kind, token, a).Some? {
            BeginStands(s, kind, token, a);
          } else {
            BeginRefused(s, kind, token, a);
          }
        case MsgSubmit => if s.run.kind.Some? { DecideStands(s, a.verdict, a.methods); }
        case MsgCancel => EndStays(s); OfferStands(End(s), a.methods);
        case Garbled =>
      }
    case Resolves(v, methods) => if s.run.kind.Some? { DecideStands(s, v, methods); }
    case Clears(sid) =>
  }

  lemma KeyRefused(s: Server, pk: bytes, sig: bytes, a: Answers)
    requires TryKey(s, pk, sig, a).None?
    ensures !Admits(s, Receives(MsgPublicKey(pk, sig), a))
  {
  }

  lemma PasswordRefused(s: Server, pass: bytes, a: Answers)
    requires TryPassword(s, pass, a).None?
    ensures !Admits(s, Receives(MsgPassword(pass), a))
  {
  }

  lemma BeginRefused(s: Server, m: Method, token: bool, a: Answers)
    requires Begin(s, m, token, a).None?
    ensures !Admits(s, Receives(MsgBegin(m, token), a))
  {
  }

  // Nothing but teardown moves a server that has decided.
  lemma DecidedStays(s: Server, e: Event)
    requires s.state != Pending && !e.Clears?
    ensures Step(s, e) == (s, [])
  {
  }

  // So whatever is fed to it afterwards, it says nothing and stays as it decided.
  lemma {:induction false} DecidedForGood(s: Server, es: seq<Event>)
    requires s.state != Pending && forall i :: 0 <= i < |es| ==> !es[i].Clears?
    ensures Run(s, es) == (s, [])
    decreases |es|
  {
    hide Step;
    if es != [] {
      DecidedStays(s, es[0]);
      DecidedForGood(s, es[1..]);
      var none: seq<Reply> := [];
      assert Run(s, es).1 == none + none;
    }
  }

  // The server says OK exactly when it becomes OK.
  lemma SaysOkIff(s: Server, e: Event)
    requires Ok(s)
    ensures SayOk in Step(s, e).1 <==> s.state == Pending && Step(s, e).0.state == Admitted
  {
    hide Step, Admits, Ok;
    if s.state == Pending {
      AdmittedExactlyBy(s, e);
    } else if e.Clears? {
      ClearsSilently(s, e);
    } else {
      DecidedStays(s, e);
    }
  }

  lemma ClearsSilently(s: Server, e: Event)
    requires e.Clears?
    ensures Step(s, e).1 == [] && Step(s, e).0.state == Pending
  {
  }

  // A method runs only after it was begun while on offer.
  lemma RunningWasOffered(s: Server, e: Event)
    requires Ok(s) && Step(s, e).0.run.kind.Some?
    ensures !e.Clears?
    ensures || Step(s, e).0.run.kind == s.run.kind
            || (e.Receives? && e.m.MsgBegin? && e.m.kind == Step(s, e).0.run.kind.value && e.m.kind in s.avail)
  {
    hide SignedFor, Text;
  }

  lemma {:induction false} RunSnoc(s: Server, es: seq<Event>, e: Event)
    ensures Run(s, es + [e]).0 == Step(Run(s, es).0, e).0
    decreases |es|
  {
    hide Step;
    if es == [] {
      assert es + [e] == [e] && [e][1..] == [];
    } else {
      assert (es + [e])[1..] == es[1..] + [e];
      RunSnoc(Step(s, es[0]).0, es[1..], e);
    }
  }

  // The server after a run from the start.
  ghost function After(session: Session, es: seq<Event>): Server {
    Run(Start(session), es).0
  }

  lemma SomethingHappened(session: Session, es: seq<Event>)
    requires After(session, es).run.kind.Some? || After(session, es).state == Admitted
    ensures es != []
  {
  }

  lemma AfterOk(session: Session, es: seq<Event>)
    ensures Ok(After(session, es))
    ensures After(session, []) == Start(session)
  {
    MethodsAccounted(Start(session), es);
  }

  // The last step of a run.
  lemma AfterLast(session: Session, es: seq<Event>)
    requires es != []
    ensures var n := |es| - 1; After(session, es) == Step(After(session, es[..n]), es[n]).0
  {
    hide Run, Step;
    var n := |es| - 1;
    assert es == es[..n] + [es[n]];
    RunSnoc(Start(session), es[..n], es[n]);
  }

  // The j-th event began this method while it was on offer, and nothing was cleared since.
  ghost predicate BegunAt(session: Session, es: seq<Event>, j: nat, kind: Method) {
    && j < |es| && es[j].Receives? && es[j].m.MsgBegin? && es[j].m.kind == kind
    && kind in After(session, es[..j]).avail
    && forall i :: j < i < |es| ==> !es[i].Clears?
  }

  ghost predicate WasBegun(session: Session, es: seq<Event>, kind: Method) {
    exists j: nat :: BegunAt(session, es, j, kind)
  }

  lemma BegunLonger(session: Session, es: seq<Event>, j: nat, kind: Method)
    requires es != [] && !es[|es| - 1].Clears? && BegunAt(session, es[..|es| - 1], j, kind)
    ensures BegunAt(session, es, j, kind)
  {
    hide After;
    var before := es[..|es| - 1];
    assert before[..j] == es[..j];
    forall i | j < i < |es| ensures !es[i].Clears? {
      assert i < |before| ==> before[i] == es[i];
    }
  }

  // In every run, a method that is running was begun by the peer while it was on offer.
  lemma {:induction false} RunningWasBegun(session: Session, es: seq<Event>) returns (j: nat)
    requires After(session, es).run.kind.Some?
    ensures BegunAt(session, es, j, After(session, es).run.kind.value)
    decreases |es|
  {
    hide Step, After, BegunAt, Ok;
    SomethingHappened(session, es);
    var n := |es| - 1;
    AfterOk(session, es[..n]);
    AfterLast(session, es);
    RunningWasOffered(After(session, es[..n]), es[n]);
    if After(session, es).run.kind == After(session, es[..n]).run.kind {
      j := RunningWasBegun(session, es[..n]);
      BegunLonger(session, es, j, After(session, es).run.kind.value);
    } else {
      j := n;
      BegunHere(session, es);
    }
  }

  lemma BegunHere(session: Session, es: seq<Event>)
    requires es != [] && es[|es| - 1].Receives? && es[|es| - 1].m.MsgBegin?
    requires es[|es| - 1].m.kind in After(session, es[..|es| - 1]).avail
    ensures BegunAt(session, es, |es| - 1, es[|es| - 1].m.kind)
  {
  }

  // The step ends an interactive login rather than checking a key or a password.
  predicate EndsInteractive(e: Event) {
    e.Resolves? || (e.Receives? && (e.m.MsgSubmit? || e.m.MsgBegin?))
  }

  // Main result: over every sequence of messages, callbacks' answers and teardowns, a server
  // that is OK became so at one step, through a signature on its session, its name and the
  // key together with the application's word for that name and key, through the name's
  // password, or through an interactive login that the peer began while it was on offer;
  // nothing was cleared since, and the session and the name are still those.
  lemma {:induction false} OkWasEarned(session: Session, es: seq<Event>) returns (j: nat)
    requires After(session, es).state == Admitted
    ensures j < |es|
    ensures var s, s' := After(session, es[..j]), After(session, es);
            && s.state == Pending && s.greeted && Admits(s, es[j])
            && s'.user == s.user && s'.session == s.session
            && forall i :: j < i < |es| ==> !es[i].Clears?
    ensures EndsInteractive(es[j]) ==> WasBegun(session, es[..j + 1], Interactive)
    decreases |es|
  {
    hide Step, After, BegunAt, Ok, Admits;
    SomethingHappened(session, es);
    var n := |es| - 1;
    var s, e := After(session, es[..n]), es[n];
    AfterOk(session, es[..n]);
    AfterLast(session, es);
    if e.Clears? { ClearsSilently(s, e); }
    if s.state == Pending {
      j := n;
      AdmittedExactlyBy(s, e);
      assert es[..n + 1] == es;
      if EndsInteractive(e) {
        InteractiveWasBegun(session, es);
      }
    } else {
      DecidedStays(s, e);
      j := OkWasEarned(session, es[..n]);
      assert es[..n][..j] == es[..j] && es[..n][..j + 1] == es[..j + 1];
      forall i | j < i < |es| ensures !es[i].Clears? {
        assert i < n ==> es[..n][i] == es[i];
      }
    }
  }

  lemma InteractiveWasBegun(session: Session, es: seq<Event>)
    requires es != [] && Admits(After(session, es[..|es| - 1]), es[|es| - 1]) && EndsInteractive(es[|es| - 1])
    ensures WasBegun(session, es, Interactive)
  {
    hide After, BegunAt;
    var n := |es| - 1;
    if es[n].Receives? && es[n].m.MsgBegin? {
      BegunHere(session, es);
    } else {
      var i := RunningWasBegun(session, es[..n]);
      BegunLonger(session, es, i, Interactive);
    }
  }

  // ----- how often it says no -----

  function Fails(out: seq<Reply>): nat {
    if out == [] then 0 else Flag(out[0].SayFail?) + Fails(out[1..])
  }

  lemma {:induction false} FailsSplit(a: seq<Reply>, b: seq<Reply>)
    ensures Fails(a + b) == Fails(a) + Fails(b)
    decreases |a|
  {
    if a == [] {
      assert a + b == b;
    } else {
      assert (a + b)[1..] == a[1..] + b;
      FailsSplit(a[1..], b);
    }
  }

  // Tries counted before and after, against the refusals said in between.
  ghost predicate Counts(before: nat, r: (Server, seq<Reply>)) {
    r.0.tries == before + Fails(r.1)
  }

  lemma DenyCounts(s: Server, spent: set<Method>)
    ensures Counts(s.tries, Deny(s, spent))
  {
    assert Fails([SayFail(Deny(s, spent).0.avail)]) == 1;
  }

  lemma OfferCounts(s: Server, methods: set<Method>)
    ensures Counts(s.tries, Offer(s, methods))
  {
    assert Fails([SayMethods(methods)]) == 0;
  }

  lemma DecideCounts(s: Server, v: Verdict, methods: set<Method>)
    ensures Counts(s.tries, Decide(s, v, methods))
  {
    hide Deny, Offer, End, Refused;
    EndStays(s);
    DenyCounts(End(s), Spent(s));
    DenyCounts(Refused(s), Spent(s));
    OfferCounts(s.(tally := s.tally.(completed := s.tally.completed + 1), run := Running(None, false)), methods);
    assert Fails([SayForm]) == Fails([SayWait]) == Fails([SayOk]) == 0;
  }

  lemma FeedCounts(s: Server, m: Msg, a: Answers)
    ensures Counts(s.tries, Feed(s, m, a))
  {
    hide Deny, Offer, Decide, End, SignedFor, Text;
    assert Fails([SayOk]) == Fails([]) == 0;
    match m
    case MsgHello(user) => OfferCounts(s.(user := user, greeted := true), a.methods);
    case MsgPublicKey(pk, sig) => DenyCounts(s, {}); DenyCounts(s, {PublicKey});
    case MsgPassword(pass) => DenyCounts(s, {}); DenyCounts(s, {Password});
    case MsgBegin(kind, token) =>
      DenyCounts(s, {});
      var s1 := s.(run := Running(Some(kind), false), tally := s.tally.(begun := s.tally.begun + 1));
      EndStays(s1);
      DenyCounts(End(s1), Spent(s1));
      DecideCounts(s1, a.verdict, a.methods);
    case MsgSubmit => DecideCounts(s, a.verdict, a.methods);
    case MsgCancel => EndStays(s); OfferCounts(End(s), a.methods);
    case Garbled =>
  }

  lemma FailsAreTries(s: Server, e: Event)
    requires !e.Clears?
    ensures Counts(s.tries, Step(s, e))
  {
    hide Feed, Decide;
    match e
    case Receives(m, a) => FeedCounts(s, m, a);
    case Resolves(v, methods) => DecideCounts(s, v, methods);
  }

  // No conversation sees more than six refusals.
  lemma {:induction false} AtMostSixFails(s: Server, es: seq<Event>)
    requires Ok(s) && forall i :: 0 <= i < |es| ==> !es[i].Clears?
    ensures s.tries + Fails(Run(s, es).1) == Run(s, es).0.tries <= MAX_TRIES
    decreases |es|
  {
    hide Step;
    if es != [] {
      StepKeepsOk(s, es[0]);
      FailsAreTries(s, es[0]);
      AtMostSixFails(Step(s, es[0]).0, es[1..]);
      FailsSplit(Step(s, es[0]).1, Run(Step(s, es[0]).0, es[1..]).1);
    }
  }

  // ----- the object -----

  class Auth {
    var session: Session
    var state: State
    var greeted: bool
    var user: bytes
    var avail: set<Method>
    var tries: nat
    var running: Option<Method>
    var fired: bool
    ghost var tally: Tally
    var out: seq<Reply>

    ghost function Abs(): Server
      reads this
    {
      Server(session, state, greeted, user, avail, tries, Running(running, fired), tally)
    }

    constructor (session: Session)
      ensures Abs() == Start(session) && out == []
    {
      this.session := session;
      state, greeted, user, avail, tries, running, fired, out := Pending, false, [], {}, 0, None, false, [];
      tally := Tally(0, 0, 0, 0);
    }

    // The new state and the replies appended are those of a step.
    twostate predicate Did(r: (Server, seq<Reply>))
      reads this
    {
      Abs() == r.0 && out == old(out) + r.1
    }

    method DenyMethod(spent: set<Method>)
      modifies this
      ensures Did(Deny(old(Abs()), spent))
    {
      avail := avail - spent;
      tries := tries + 1;
      if tries >= MAX_TRIES || avail == {} {
        avail := {};
        state := Denied;
      }
      out := out + [SayFail(avail)];
    }

    method OfferMethods(methods: set<Method>)
      modifies this
      ensures Did(Offer(old(Abs()), methods))
    {
      avail := methods;
      if avail == {} {
        state := Denied;
      }
      out := out + [SayMethods(avail)];
    }

    method EndMethod()
      modifies this`running, this`fired, this`tally
      ensures Abs() == End(old(Abs()))
    {
      if running.Some? && !fired {
        fired := true;
        tally := tally.(cancelled := tally.cancelled + 1);
      }
      running := None;
    }

    method Settle(v: Verdict, methods: set<Method>)
      requires running.Some?
      modifies this
      ensures Did(Decide(old(Abs()), v, methods))
    {
      hide Deny, Offer;
      var m := running.value;
      match v
      case More(form, encodes) =>
        if !form {
          EndMethod();
          DenyMethod({m});
        } else if !encodes {
          fired := true;
          tally := tally.(refused := tally.refused + 1);
          EndMethod();
          DenyMethod({m});
        } else {
          out := out + [SayForm];
        }
      case Wait =>
        out := out + [SayWait];
      case Done =>
        fired := true;
        running := None;
        tally := tally.(completed := tally.completed + 1);
        if m == Register {
          fired := false;
          OfferMethods(methods);
        } else {
          state := Admitted;
          out := out + [SayOk];
        }
      case Refuse =>
        fired := true;
        tally := tally.(refused := tally.refused + 1);
        EndMethod();
        DenyMethod({m});
    }

    // One message; false is a protocol error, which denies the login.
    method FeedMsg(m: Msg, a: Answers) returns (ok: bool)
      modifies this
      ensures Did(Feed(old(Abs()), m, a))
    {
      if state != Pending { return false; }
      ok := HandleMsg(m, a);
      if !ok {
        state := Denied;
      }
    }

    method HandleMsg(m: Msg, a: Answers) returns (ok: bool)
      modifies this
      ensures match Handle(old(Abs()), m, a)
              case None => !ok && Abs() == old(Abs()) && out == old(out)
              case Some(r) => ok && Did(r)
    {
      hide Deny, Offer, Decide, End, SignedFor, Text;
      ok := false;
      match m
      case MsgHello(name) =>
        if greeted || |name| > MAX_USER { return; }
        user, greeted, ok := name, true, true;
        OfferMethods(a.methods);
      case MsgPublicKey(pk, sig) =>
        if !greeted || |pk| != KEY_LEN || |sig| != SIG_LEN { return; }
        ok := true;
        if PublicKey !in avail {
          DenyMethod({});
        } else if SignedFor(session, user, pk, sig) && a.checkKey(Text(user), pk) {
          state := Admitted;
          out := out + [SayOk];
        } else {
          DenyMethod({PublicKey});
        }
      case MsgPassword(pass) =>
        if !greeted || |pass| > MAX_PASS - 1 { return; }
        ok := true;
        if Password !in avail {
          DenyMethod({});
        } else if a.checkPassword(Text(user), Text(pass)) {
          state := Admitted;
          out := out + [SayOk];
        } else {
          DenyMethod({Password});
        }
      case MsgBegin(kind, token) =>
        if !greeted || running.Some? || (kind != Register && kind != Interactive) { return; }
        ok := true;
        if kind !in avail || !a.interactive {
          DenyMethod({});
          return;
        }
        running, fired := Some(kind), false;
        tally := tally.(begun := tally.begun + 1);
        if token && !a.resumes {
          EndMethod();
          DenyMethod({kind});
        } else {
          Settle(a.verdict, a.methods);
        }
      case MsgSubmit =>
        if running.None? || !a.submits || !a.decodes { return; }
        ok := true;
        Settle(a.verdict, a.methods);
      case MsgCancel =>
        if running.None? { return; }
        ok := true;
        EndMethod();
        OfferMethods(a.methods);
      case Garbled =>
    }

    method ResumeWait(v: Verdict, methods: set<Method>)
      modifies this
      ensures Did(Resume(old(Abs()), v, methods))
    {
      if running.None? || state != Pending { return; }
      Settle(v, methods);
    }

    method Wipe(sid: bytes)
      modifies this
      ensures Abs() == Clear(old(Abs()), sid) && out == old(out)
    {
      EndMethod();
      session := session.(sid := sid);
      state, greeted, user, avail, tries, running, fired := Pending, false, [], {}, 0, None, false;
    }
  }
}
