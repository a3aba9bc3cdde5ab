/** Exchanges complete: from every reachable state, a request that arrives and whose answer is taken in leaves both
  sides with each other's current key. */
module Exchanges {
  import opened Bytes
  import opened Cipher
  import opened Curve
  import opened PacketState
  import opened Relay
  import opened Sealing
  import opened Protocol
  import opened Runs
  import opened Histories
  import opened Steady
  import Base64
  import Json

  /** The datagram that a sending step puts on the network, if any. */
  function Sends(w: World, s: State, step: Step): Option<Datagram>
    requires IsSend(step)
  {
    Outbound(w, Prepared(s, step), step.c, step.dest, MetaOf(step), TextOf(w, s, step), step.nonce)
  }

  /** The client's packet leaves, and the server can read it. */
  predicate Reaches(w: World, s: State, step: Step) {
    && IsSend(step) && Enabled(w, s, step) && Sends(w, s, step).Some?
    && Readable(w, Do(w, s, step), Sends(w, s, step).value)
  }

  /** A client without transforms, such as a new one, always reaches the server. */
  lemma PlainReaches(w: World, s: State, step: Step)
    requires IsSend(step) && Enabled(w, s, step) && !ClientOf(s, step.c).extended
    ensures Reaches(w, s, step)
  {
    var t := Prepared(s, step);
    assert InUse(ClientOf(t, step.c)) == map[];
    PlainLeaves(w, t, step.c, step.dest, MetaOf(step), TextOf(w, s, step), step.nonce);
  }

  lemma PlainLeaves(w: World, s: State, c: string, dest: string, m: Meta, text: string, nonce: Bytes)
    requires InUse(ClientOf(s, c)) == map[]
    ensures var d := Outbound(w, s, c, dest, m, text, nonce); d.Some? && d.value.against.None? && d.value.to == w.server
  {
  }

  lemma RequestLeaves(w: World, s: State, step: Step)
    requires Inv(w, s) && Reaches(w, s, step)
    ensures var d, s' := Sends(w, s, step).value, Do(w, s, step);
            && s'.net == s.net + {d} && d.from == Now(s, step.c) && d.to == w.server
            && d.meta == MetaOf(step) && d.text == TextOf(w, s, step)
            && s'.serverKeys == s.serverKeys && s'.held == s.held && s'.queue == s.queue && s'.lives == s.lives
            && s'.asked == Prepared(s, step).asked && s'.used == Prepared(s, step).used
            && (forall x :: ClientOf(s', x) == ClientOf(s, x))
  {
    assert ClientOk(w, s, step.c);
    SendStepOnly(w, s, step);
  }

  /** An exempt packet, once emitted, is on the network as it is, and nothing else changes. */
  lemma ExemptLeaves(w: World, s: State, o: Outgoing, nonce: Bytes, stale: string) returns (d: Datagram)
    requires o in s.queue && Exempt(o.meta) && |nonce| == NONCE_SIZE
    ensures Do(w, s, ServerEmit(o, true, nonce, stale)) == s.(queue := s.queue - multiset{o}, net := s.net + {d})
    ensures d.to == o.dest && d.meta == o.meta && d.text == o.text && d.against.None? && d.from == Now(s, w.server)
  {
    d := Sent(w, s, o, nonce, Json.Marshal(o.meta, o.text));
    assert Emit(w.aead, s.serverKeys, o, true, nonce, stale) == Emission.Written(s.serverKeys, d.wire);
  }

  /** What a client does with a datagram it can read. */
  lemma ClientTakes(w: World, s: State, d: Datagram, pooled: PktState)
    requires Sound(w) && Inv(w, s) && d in s.net && Alive(w, s, d.to) && Readable(w, s, d)
    ensures Do(w, s, ClientReceive(d, pooled)) == Learn(w, s, d.to, Content(d.meta, d.text))
  {
    ClientRecovers(w, s, d, pooled);
    assert Enabled(w, s, ClientReceive(d, pooled));
  }

  lemma LearnStores(w: World, s: State, c: string, p: Option<Received>, pub: Point)
    requires p.Some? && Awaits(s, c, Ref(p.value)) && ReadingOf(w, p.value.data) == Complete(pub)
    ensures Learn(w, s, c, p) == Store(w, Answered(s, Ref(p.value)), c, Owner(w, s.asked[Ref(p.value)].what), pub)
  {
  }

  /** A client that waits for an answer and takes in an unsealed packet with a key in it stores the key. */
  lemma AnswerTaken(w: World, s: State, d: Datagram, ref: string, pub: Point, pooled: PktState)
    requires Sound(w) && Inv(w, s) && d in s.net && Alive(w, s, d.to) && d.against.None?
    requires Get(d.meta, KEY_REF) == ref && TextReading(w, d.text) == Complete(pub) && Awaits(s, d.to, ref)
    ensures Do(w, s, ClientReceive(d, pooled)) == Store(w, Answered(s, ref), d.to, Owner(w, s.asked[ref].what), pub)
  {
    ClientTakes(w, s, d, pooled);
    LearnStores(w, s, d.to, Content(d.meta, d.text), pub);
  }

  lemma KeyInText(w: World, pub: Point)
    ensures TextReading(w, Base64.Encode(PrintKey(pub))) == Complete(pub)
  {
    KeyContent(map[], pub);
  }

  /** A datagram that the server could read, on the way to being answered. */
  function Read(d: Datagram): Taken {
    Taken(d, Content(d.meta, d.text))
  }

  /** The server opens a datagram and answers it. */
  function Served(w: World, s: State, d: Datagram, pooled: PktState, stale: string): State {
    Do(w, Do(w, s, ServerOpen(d, pooled)), ServerAnswer(Read(d), stale))
  }

  lemma ServedOk(w: World, s: State, d: Datagram, pooled: PktState, stale: string)
    requires Sound(w) && Inv(w, s)
    ensures Inv(w, Served(w, s, d, pooled, stale))
  {
    StepKeeps(w, s, ServerOpen(d, pooled));
    StepKeeps(w, Do(w, s, ServerOpen(d, pooled)), ServerAnswer(Read(d), stale));
  }

  lemma KexHandled(w: World, s: State, d: Datagram, stale: string)
    requires Inv(w, s) && d in s.net && d.to == w.server && Get(d.meta, KEY_TARGET) == TARGET_KEX_SERVER
    ensures var keys := Install(w.group, ServerEnv(w, s).scalar, s.serverKeys, d.from.addr, Pub(w, d.from), false);
            Handle(ServerEnv(w, s), s.serverKeys, d.from.addr, Content(d.meta, d.text), stale) ==
            Reply(keys, KeyReply(Get(d.meta, KEY_REF), d.from.addr, Pub(w, Now(s, w.server))))
  {
    assert DatagramOk(w, s, d);
    DistinctTargets();
    KeyContent(d.meta, Pub(w, d.from));
  }

  lemma KexAnswer(w: World, s: State, d: Datagram, pooled: PktState, stale: string)
    requires Sound(w) && Inv(w, s) && d in s.net && d.to == w.server && Readable(w, s, d)
    requires Get(d.meta, KEY_TARGET) == TARGET_KEX_SERVER
    ensures var keys := Install(w.group, ServerEnv(w, s).scalar, s.serverKeys, d.from.addr, Pub(w, d.from), false);
            Served(w, s, d, pooled, stale) ==
            AfterReceive(s, Reply(keys, KeyReply(Get(d.meta, KEY_REF), d.from.addr, Pub(w, Now(s, w.server)))))
  {
    KexHandled(w, s, d, stale);
    ServerTakes(w, s, d, pooled, stale);
  }

  lemma DirectoryAnswer(w: World, s: State, d: Datagram, addr: string, pooled: PktState, stale: string)
    requires Sound(w) && Inv(w, s) && d in s.net && d.to == w.server && Readable(w, s, d)
    requires Get(d.meta, KEY_TARGET) == TARGET_KEX_CLIENT
    requires Get(d.meta, KEY_REF) in s.asked && s.asked[Get(d.meta, KEY_REF)].what == ClientKey(addr)
    ensures var e, p := ServerEnv(w, s), Received(d.meta, PrintAddr(addr));
            && Served(w, s, d, pooled, stale) ==
               AfterReceive(s, AnswerKexClient(e, s.serverKeys, d.from.addr, p, stale))
            && AddrFrom(e, PrintAddr(addr)) == Some(addr)
  {
    KexClientContent(w, s, d);
    DistinctTargets();
    ServerTakes(w, s, d, pooled, stale);
  }

  lemma FiveSteps(w: World, s: State, a: Step, b: Step, c: Step, d: Step, e: Step)
    ensures Exec(w, s, [a, b, c, d, e]) == Do(w, Do(w, Do(w, Do(w, Do(w, s, a), b), c), d), e)
  {
    assert [a, b, c, d, e][..4] == [a, b, c, d] && [a, b, c, d][..3] == [a, b, c];
    assert [a, b, c][..2] == [a, b] && [a, b][..1] == [a] && [a][..0] == [];
    assert Exec(w, s, [a]) == Do(w, s, a);
    assert Exec(w, s, [a, b]) == Do(w, Do(w, s, a), b);
    assert Exec(w, s, [a, b, c]) == Do(w, Do(w, Do(w, s, a), b), c);
    assert Exec(w, s, [a, b, c, d]) == Do(w, Do(w, Do(w, Do(w, s, a), b), c), d);
  }

  /** What an exchange with the server leaves: each side has the other's current point, and the value they share. */
  ghost predicate Exchanged(w: World, s: State, s': State, c: string) {
    var me, server := Now(s, c), Now(s, w.server);
    var keys := ClientOf(s, c).keys;
    && s'.lives == s.lives && s'.held == s.held && s'.queue == s.queue
    && s'.serverKeys == s.serverKeys[c := KeyInfo(false, SharedWith(w, server, Pub(w, me)), Pub(w, me))]
    && ClientOf(s', c) ==
       ClientOf(s, c).(keys := keys[w.server := KeyInfo(true, SharedWith(w, me, Pub(w, server)), Pub(w, server))])
    && (forall x :: x != c ==> ClientOf(s', x) == ClientOf(s, x))
  }

  lemma RequestTargets(ref: string, target: string)
    ensures Get(RequestMeta(ref, target), KEY_TARGET) == target && Get(RequestMeta(ref, target), KEY_REF) == ref
  {
    DistinctKeys();
  }

  /** The first steps: the request is sent, opened and answered. */
  lemma ExchangeRequested(w: World, s: State, c: string, dest: string, ref: string, nonce: Bytes, pooled: PktState,
                          stale: string)
    returns (d: Datagram, s': State)
    requires Sound(w) && Inv(w, s) && Reaches(w, s, AskServer(c, dest, ref, nonce))
    ensures s' == Served(w, Do(w, s, AskServer(c, dest, ref, nonce)), d, pooled, stale) && Inv(w, s')
    ensures s'.lives == s.lives && s'.held == s.held && s'.asked == s.asked[ref := Ask(Now(s, c), ServerKey, true)]
    ensures s'.queue == s.queue + multiset{KeyReply(ref, c, Pub(w, Now(s, w.server)))}
    ensures s'.serverKeys == Install(w.group, ServerEnv(w, s).scalar, s.serverKeys, c, Pub(w, Now(s, c)), false)
    ensures forall x :: ClientOf(s', x) == ClientOf(s, x)
    ensures s'.used == s.used + {ref} && s'.net == s.net + {d} && d.to == w.server
  {
    var ask := AskServer(c, dest, ref, nonce);
    var s1 := Do(w, s, ask);
    RequestLeaves(w, s, ask);
    StepKeeps(w, s, ask);
    d := Sends(w, s, ask).value;
    s' := Served(w, s1, d, pooled, stale);
    RequestTargets(ref, TARGET_KEX_SERVER);
    KexAnswer(w, s1, d, pooled, stale);
    ServedOk(w, s1, d, pooled, stale);
  }

  /** The last step: the asker takes in the answer of the server about itself. */
  lemma ServerAnswerTaken(w: World, s: State, d: Datagram, ref: string, pooled: PktState)
    requires Sound(w) && Inv(w, s) && d in s.net && Alive(w, s, d.to) && d.against.None? && d.from == Now(s, w.server)
    requires Get(d.meta, KEY_REF) == ref && d.text == KeyData(w, d.from)
    requires Awaits(s, d.to, ref) && s.asked[ref].what.ServerKey?
    ensures Do(w, s, ClientReceive(d, pooled)) == Store(w, Answered(s, ref), d.to, w.server, Pub(w, d.from))
  {
    KeyInText(w, Pub(w, d.from));
    AnswerTaken(w, s, d, ref, Pub(w, d.from), pooled);
  }

  lemma ExchangedInStep(w: World, s: State, s': State, c: string, ref: string)
    requires c != w.server && Exchanged(w, s, s', c) && IsServerAsk(s', ref, Now(s', c))
    ensures InStep(w, s', c)
  {
  }

  /** The last two steps: the answer is emitted and taken in. */
  lemma ExchangeAnswered(w: World, s: State, c: string, ref: string, nonce: Bytes, pooled: PktState, stale: string)
    returns (d: Datagram, s': State)
    requires Sound(w) && Inv(w, s) && Alive(w, s, c) && |nonce| == NONCE_SIZE
    requires KeyReply(ref, c, Pub(w, Now(s, w.server))) in s.queue && Awaits(s, c, ref) && s.asked[ref].what.ServerKey?
    ensures var reply := KeyReply(ref, c, Pub(w, Now(s, w.server)));
            && s' == Do(w, Do(w, s, ServerEmit(reply, true, nonce, stale)), ClientReceive(d, pooled))
            && d.text == KeyData(w, Now(s, w.server)) && d.from == Now(s, w.server) && d.to == c
            && s' == Store(w, Answered(s.(queue := s.queue - multiset{reply}, net := s.net + {d}), ref), c, w.server,
                           Pub(w, Now(s, w.server)))
  {
    var reply := KeyReply(ref, c, Pub(w, Now(s, w.server)));
    KeyReplyExempt(ref, c, Pub(w, Now(s, w.server)));
    d := ExemptLeaves(w, s, reply, nonce, stale);
    StepKeeps(w, s, ServerEmit(reply, true, nonce, stale));
    ServerAnswerTaken(w, Do(w, s, ServerEmit(reply, true, nonce, stale)), d, ref, pooled);
    s' := Do(w, Do(w, s, ServerEmit(reply, true, nonce, stale)), ClientReceive(d, pooled));
  }

  lemma ExchangeLeaves(w: World, s: State, s2: State, s4: State, c: string, ref: string, d: Datagram)
    requires c != w.server && s2.lives == s.lives && s2.held == s.held
    requires s2.asked == s.asked[ref := Ask(Now(s, c), ServerKey, true)]
    requires s2.queue == s.queue + multiset{KeyReply(ref, c, Pub(w, Now(s, w.server)))}
    requires s2.serverKeys == Install(w.group, ServerEnv(w, s).scalar, s.serverKeys, c, Pub(w, Now(s, c)), false)
    requires forall x :: ClientOf(s2, x) == ClientOf(s, x)
    requires var rest := s2.queue - multiset{KeyReply(ref, c, Pub(w, Now(s, w.server)))};
             var s3 := s2.(queue := rest, net := s2.net + {d});
             s4 == Store(w, Answered(s3, ref), c, w.server, Pub(w, Now(s, w.server)))
    ensures Exchanged(w, s, s4, c) && IsServerAsk(s4, ref, Now(s4, c))
  {
    assert s4.queue == s.queue;
  }

  function ExchangeSteps(w: World, s: State, c: string, dest: string, ref: string, n1: Bytes, n2: Bytes, p1: PktState,
                         p2: PktState, stale: string, request: Datagram, answer: Datagram): seq<Step>
  {
    [AskServer(c, dest, ref, n1), ServerOpen(request, p1), ServerAnswer(Read(request), stale),
     ServerEmit(KeyReply(ref, c, Pub(w, Now(s, w.server))), true, n2, stale), ClientReceive(answer, p2)]
  }

  lemma ExchangeFrom(w: World, s: State, c: string, dest: string, ref: string, n1: Bytes, n2: Bytes,
                     p1: PktState, p2: PktState, stale: string)
    returns (request: Datagram, answer: Datagram, s': State)
    requires Sound(w) && Inv(w, s) && Reaches(w, s, AskServer(c, dest, ref, n1)) && |n2| == NONCE_SIZE
    ensures s' == Exec(w, s, ExchangeSteps(w, s, c, dest, ref, n1, n2, p1, p2, stale, request, answer))
    ensures Exchanged(w, s, s', c) && IsServerAsk(s', ref, Now(s', c))
    ensures s'.used == s.used + {ref} && answer in s'.net
    ensures answer.text == KeyData(w, Now(s, w.server)) && answer.from == Now(s, w.server) && answer.to == c
  {
    var s2;
    request, s2 := ExchangeRequested(w, s, c, dest, ref, n1, p1, stale);
    answer, s' := ExchangeAnswered(w, s2, c, ref, n2, p2, stale);
    var reply := KeyReply(ref, c, Pub(w, Now(s, w.server)));
    FiveSteps(w, s, AskServer(c, dest, ref, n1), ServerOpen(request, p1), ServerAnswer(Read(request), stale),
              ServerEmit(reply, true, n2, stale), ClientReceive(answer, p2));
    ExchangeLeaves(w, s, s2, s', c, ref, answer);
  }

  /** The first coordinate of the base point times both scalars. */
  function JointValue(w: World, p: Party, q: Party): nat {
    Mul(w.group, w.scalar(p) * w.scalar(q), w.group.base).x
  }

  /** The client and the server have this value for each other. */
  predicate BothHold(w: World, s: State, c: string, value: nat) {
    && c in s.serverKeys && s.serverKeys[c].shared == value
    && w.server in ClientOf(s, c).keys && ClientOf(s, c).keys[w.server].shared == value
  }

  lemma ExchangedAgree(w: World, s: State, s': State, c: string)
    requires Sound(w) && Exchanged(w, s, s', c)
    ensures BothHold(w, s', c, JointValue(w, Now(s, c), Now(s, w.server)))
  {
    Agreement(w.group, w.scalar(Now(s, c)), w.scalar(Now(s, w.server)));
  }

  /** An exchange with the server: from every reachable state, whatever either side had before, a request that reaches
    the server and whose answer is taken in leaves both sides with each other's current point and the same shared
    value, and so in step. */
  lemma ServerExchange(w: World, pre: seq<Step>, c: string, dest: string, ref: string, n1: Bytes, n2: Bytes,
                       p1: PktState, p2: PktState, stale: string)
    returns (request: Datagram, answer: Datagram)
    requires Sound(w) && Reaches(w, After(w, pre), AskServer(c, dest, ref, n1)) && |n2| == NONCE_SIZE
    ensures var s := After(w, pre);
            var steps := ExchangeSteps(w, s, c, dest, ref, n1, n2, p1, p2, stale, request, answer);
            var s' := After(w, pre + steps);
            && Exchanged(w, s, s', c) && InStep(w, s', c)
            && BothHold(w, s', c, JointValue(w, Now(s, c), Now(s, w.server)))
            && s'.used == s.used + {ref}
            && answer in s'.net && answer.from == Now(s, w.server) && answer.to == c
            && answer.text == KeyData(w, Now(s, w.server))
  {
    var s, s' := After(w, pre), Init();
    ReachableOk(w, pre);
    request, answer, s' := ExchangeFrom(w, s, c, dest, ref, n1, n2, p1, p2, stale);
    ExecSplit(w, Init(), pre, ExchangeSteps(w, s, c, dest, ref, n1, n2, p1, p2, stale, request, answer));
    ExchangedInStep(w, s, s', c, ref);
    ExchangedAgree(w, s, s', c);
  }

  // ---------- exchanges between clients ----------

  /** The datagram has the text of a request of `who` for the key of an address. */
  predicate Requests(d: Datagram, who: Party, addr: string) {
    d.from == who && d.text == Base64.Encode(PrintAddr(addr))
  }

  /** The first steps of a request for a client's key. */
  lemma DirectoryRequested(w: World, s: State, c: string, dest: string, ref: string, addr: string, nonce: Bytes,
                           pooled: PktState, stale: string)
    returns (d: Datagram, s': State)
    requires Sound(w) && Inv(w, s) && Reaches(w, s, AskClient(c, dest, ref, addr, nonce))
    ensures s' == Served(w, Do(w, s, AskClient(c, dest, ref, addr, nonce)), d, pooled, stale) && Inv(w, s')
    ensures AskedFor(s, s', c, ref, addr, DirectoryReply(s, c, ref, addr, stale)) && s'.used == s.used + {ref}
    ensures d in s'.net && Requests(d, Now(s, c), addr)
  {
    var ask := AskClient(c, dest, ref, addr, nonce);
    var s1 := Do(w, s, ask);
    RequestLeaves(w, s, ask);
    StepKeeps(w, s, ask);
    d := Sends(w, s, ask).value;
    s' := Served(w, s1, d, pooled, stale);
    RequestTargets(ref, TARGET_KEX_CLIENT);
    DirectoryAnswer(w, s1, d, addr, pooled, stale);
    DirectoryReplyFrom(ServerEnv(w, s), s, c, ref, addr, stale);
    ServedOk(w, s1, d, pooled, stale);
  }

  lemma DirectoryReplyFrom(e: Env, s: State, c: string, ref: string, addr: string, stale: string)
    requires AddrFrom(e, PrintAddr(addr)) == Some(addr)
    ensures var p := Received(RequestMeta(ref, TARGET_KEX_CLIENT), PrintAddr(addr));
            AnswerKexClient(e, s.serverKeys, c, p, stale) == Reply(s.serverKeys, DirectoryReply(s, c, ref, addr, stale))
  {
    RequestTargets(ref, TARGET_KEX_CLIENT);
  }

  function DirectoryReply(s: State, c: string, ref: string, addr: string, stale: string): Outgoing {
    if addr in s.serverKeys then KeyReply(ref, c, s.serverKeys[addr].public)
    else ErrOut(ref, c, "packet pipeline error: " + "client non-existent", stale)
  }

  function DirectorySteps(s: State, c: string, dest: string, ref: string, addr: string, n1: Bytes, n2: Bytes,
                          p1: PktState,
                          p2: PktState, stale: string, request: Datagram, answer: Datagram): seq<Step>
  {
    [AskClient(c, dest, ref, addr, n1), ServerOpen(request, p1), ServerAnswer(Read(request), stale),
     ServerEmit(DirectoryReply(s, c, ref, addr, stale), true, n2, stale), ClientReceive(answer, p2)]
  }

  /** The client after it took in an answer about an address that reads so. */
  function With(w: World, cl: Client, me: Party, addr: string, reading: KeyReading): Client {
    match reading
    case NoKey => cl
    case Incomplete => cl.(ended := true)
    case Complete(p) => cl.(keys := cl.keys[addr := KeyInfo(true, SharedWith(w, me, p), p)])
  }

  /** Nothing changed at the server but, perhaps, its mark for `c`. */
  ghost predicate MarksAtMost(keys: Keys, keys': Keys, c: string) {
    && keys'.Keys == keys.Keys
    && forall x :: x in keys ==> keys'[x] == keys[x] || (x == c && keys'[x] == keys[x].(keySent := true))
  }

  /** What a request for the key of `addr` leaves whose answer reads so. */
  ghost predicate GotKey(w: World, s: State, s': State, c: string, addr: string, reading: KeyReading) {
    && s'.lives == s.lives && s'.held == s.held && s'.queue == s.queue && MarksAtMost(s.serverKeys, s'.serverKeys, c)
    && (forall x :: x != c ==> ClientOf(s', x) == ClientOf(s, x))
    && ClientOf(s', c) == With(w, ClientOf(s, c), Now(s, c), addr, reading)
  }

  /** The packet leaves as it is: the server has no key for its destination, or has not sealed for it yet. */
  lemma OpenLeaves(w: World, s: State, o: Outgoing, nonce: Bytes, stale: string) returns (d: Datagram)
    requires o in s.queue && |nonce| == NONCE_SIZE
    requires o.dest in s.serverKeys ==> Exempt(o.meta) || !s.serverKeys[o.dest].keySent
    ensures var s' := Do(w, s, ServerEmit(o, true, nonce, stale));
            && s' == s.(serverKeys := s'.serverKeys, queue := s.queue - multiset{o}, net := s.net + {d})
            && MarksAtMost(s.serverKeys, s'.serverKeys, o.dest)
    ensures d.to == o.dest && d.meta == o.meta && d.text == o.text && d.against.None? && d.from == Now(s, w.server)
  {
    d := Sent(w, s, o, nonce, Json.Marshal(o.meta, o.text));
    var keys := EncryptTransport(w.aead, s.serverKeys, o.meta, o.dest, nonce, Json.Marshal(o.meta, o.text)).keys;
    assert Emit(w.aead, s.serverKeys, o, true, nonce, stale) == Emission.Written(keys, d.wire);
  }

  lemma TextLearned(w: World, s: State, c: string, ref: string, m: Meta, text: string)
    requires Awaits(s, c, ref) && Get(m, KEY_REF) == ref
    ensures ClientOf(Learn(w, s, c, Content(m, text)), c) ==
            With(w, ClientOf(s, c), Now(s, c), Owner(w, s.asked[ref].what), TextReading(w, text))
  {
    var p := Content(m, text);
    if p.Some? && ReadingOf(w, p.value.data).Complete? {
      LearnStores(w, s, c, p, ReadingOf(w, p.value.data).pub);
    }
  }

  /** The state after the first steps, as far as the last two are concerned. */
  ghost predicate AskedFor(s: State, s2: State, c: string, ref: string, addr: string, o: Outgoing) {
    && s2.lives == s.lives && s2.serverKeys == s.serverKeys && s2.held == s.held && s2.queue == s.queue + multiset{o}
    && (forall x :: ClientOf(s2, x) == ClientOf(s, x))
    && Awaits(s2, c, ref) && s2.asked[ref].what == ClientKey(addr)
  }

  /** What taking in an unsealed packet with the reference does. */
  lemma TextTaken(w: World, s: State, d: Datagram, ref: string, addr: string, pooled: PktState)
    requires Sound(w) && Inv(w, s) && d in s.net && Alive(w, s, d.to) && d.against.None?
    requires Get(d.meta, KEY_REF) == ref && Awaits(s, d.to, ref) && s.asked[ref].what == ClientKey(addr)
    ensures var s' := Do(w, s, ClientReceive(d, pooled));
            && s' == s.(asked := s'.asked, clients := s'.clients)
            && (forall x :: x != d.to ==> ClientOf(s', x) == ClientOf(s, x))
            && ClientOf(s', d.to) == With(w, ClientOf(s, d.to), Now(s, d.to), addr, TextReading(w, d.text))
  {
    ClientTakes(w, s, d, pooled);
    TextLearned(w, s, d.to, ref, d.meta, d.text);
    LearnOnly(w, s, d.to, Content(d.meta, d.text));
  }

  /** The last two steps: an answer that leaves as it is, and is taken in. */
  lemma DirectoryAnswered(w: World, s: State, s2: State, c: string, ref: string, addr: string, o: Outgoing,
                          nonce: Bytes, pooled: PktState, stale: string)
    returns (d: Datagram, s': State)
    requires Sound(w) && Inv(w, s2) && Alive(w, s, c) && |nonce| == NONCE_SIZE && o.dest == c
    requires Get(o.meta, KEY_REF) == ref && AskedFor(s, s2, c, ref, addr, o)
    requires c in s.serverKeys ==> Exempt(o.meta) || !s.serverKeys[c].keySent
    ensures s' == Do(w, Do(w, s2, ServerEmit(o, true, nonce, stale)), ClientReceive(d, pooled))
    ensures GotKey(w, s, s', c, addr, TextReading(w, o.text)) && s'.used == s2.used && s2.net <= s'.net
  {
    d := OpenLeaves(w, s2, o, nonce, stale);
    var s3 := Do(w, s2, ServerEmit(o, true, nonce, stale));
    StepKeeps(w, s2, ServerEmit(o, true, nonce, stale));
    TextTaken(w, s3, d, ref, addr, pooled);
    s' := Do(w, s3, ClientReceive(d, pooled));
    GotKeyFrom(w, s, s3, s', c, addr, TextReading(w, o.text));
  }

  /** What a step did that left the clients alone, followed by one that only gave the client an answer. */
  lemma GotKeyFrom(w: World, s: State, s3: State, s': State, c: string, addr: string, reading: KeyReading)
    requires s3.lives == s.lives && s3.queue == s.queue && (forall x :: ClientOf(s3, x) == ClientOf(s, x))
    requires MarksAtMost(s.serverKeys, s3.serverKeys, c) && s'.held == s3.held == s.held
    requires s'.lives == s3.lives && s'.queue == s3.queue && s'.serverKeys == s3.serverKeys
    requires forall x :: x != c ==> ClientOf(s', x) == ClientOf(s3, x)
    requires ClientOf(s', c) == With(w, ClientOf(s3, c), Now(s3, c), addr, reading)
    ensures GotKey(w, s, s', c, addr, reading)
  {
  }

  /** What the answer reads as: the point that the server has for `addr`, or else what is left over. */
  function Brought(w: World, s: State, addr: string, stale: string): KeyReading {
    if addr in s.serverKeys then Complete(s.serverKeys[addr].public) else TextReading(w, stale)
  }

  lemma DirectoryReplyIs(w: World, s: State, c: string, ref: string, addr: string, stale: string)
    ensures var o := DirectoryReply(s, c, ref, addr, stale);
            && o.dest == c && Get(o.meta, KEY_REF) == ref && (Exempt(o.meta) <==> addr in s.serverKeys)
            && TextReading(w, o.text) == Brought(w, s, addr, stale)
  {
    if addr in s.serverKeys {
      KeyReplyExempt(ref, c, s.serverKeys[addr].public);
      KeyInText(w, s.serverKeys[addr].public);
    } else {
      ErrOutNotExempt(ref, c, "packet pipeline error: " + "client non-existent", stale);
    }
  }

  lemma DirectoryDone(w: World, s: State, c: string, dest: string, ref: string, addr: string, n1: Bytes, n2: Bytes,
                      p1: PktState, p2: PktState, stale: string)
    returns (request: Datagram, answer: Datagram, s': State)
    requires Sound(w) && Inv(w, s) && Reaches(w, s, AskClient(c, dest, ref, addr, n1)) && |n2| == NONCE_SIZE
    requires addr in s.serverKeys || c !in s.serverKeys || !s.serverKeys[c].keySent
    ensures var o := DirectoryReply(s, c, ref, addr, stale);
            var s2 := Served(w, Do(w, s, AskClient(c, dest, ref, addr, n1)), request, p1, stale);
            && s' == Do(w, Do(w, s2, ServerEmit(o, true, n2, stale)), ClientReceive(answer, p2))
            && GotKey(w, s, s', c, addr, TextReading(w, o.text)) && s'.used == s.used + {ref}
            && request in s'.net && Requests(request, Now(s, c), addr)
  {
    var s2, o := s, DirectoryReply(s, c, ref, addr, stale);
    request, s2 := DirectoryRequested(w, s, c, dest, ref, addr, n1, p1, stale);
    DirectoryReplyIs(w, s, c, ref, addr, stale);
    answer, s' := DirectoryAnswered(w, s, s2, c, ref, addr, o, n2, p2, stale);
  }

  lemma DirectoryFrom(w: World, s: State, c: string, dest: string, ref: string, addr: string, n1: Bytes, n2: Bytes,
                      p1: PktState, p2: PktState, stale: string)
    returns (request: Datagram, answer: Datagram, s': State)
    requires Sound(w) && Inv(w, s) && Reaches(w, s, AskClient(c, dest, ref, addr, n1)) && |n2| == NONCE_SIZE
    requires addr in s.serverKeys || c !in s.serverKeys || !s.serverKeys[c].keySent
    ensures s' == Exec(w, s, DirectorySteps(s, c, dest, ref, addr, n1, n2, p1, p2, stale, request, answer))
    ensures GotKey(w, s, s', c, addr, Brought(w, s, addr, stale)) && s'.used == s.used + {ref}
    ensures request in s'.net && Requests(request, Now(s, c), addr)
  {
    request, answer, s' := DirectoryDone(w, s, c, dest, ref, addr, n1, n2, p1, p2, stale);
    DirectoryReplyIs(w, s, c, ref, addr, stale);
    FiveSteps(w, s, AskClient(c, dest, ref, addr, n1), ServerOpen(request, p1), ServerAnswer(Read(request), stale),
              ServerEmit(DirectoryReply(s, c, ref, addr, stale), true, n2, stale), ClientReceive(answer, p2));
  }

  lemma EndsExactly(w: World, s: State, s': State, c: string, addr: string, stale: string)
    requires GotKey(w, s, s', c, addr, Brought(w, s, addr, stale)) && Alive(w, s, c)
    ensures ClientOf(s', c).ended <==> addr !in s.serverKeys && TextReading(w, stale).Incomplete?
  {
  }

  /** An exchange between clients, from every reachable state: a request for the key of `addr` that reaches the
    server, and whose answer leaves unsealed and is taken in. If the server has a point for `addr`, the asker gets it.
    If not, the request is refused, and what the asker makes of the error packet is decided by the text left over in
    it: it stores a point exactly if the text reads as a key, its program ends exactly if the text reads as an object
    without both coordinates, and otherwise nothing changes. */
  lemma ClientExchange(w: World, pre: seq<Step>, c: string, dest: string, ref: string, addr: string, n1: Bytes,
                       n2: Bytes,
                       p1: PktState, p2: PktState, stale: string)
    returns (request: Datagram, answer: Datagram)
    requires Sound(w) && Reaches(w, After(w, pre), AskClient(c, dest, ref, addr, n1)) && |n2| == NONCE_SIZE
    requires var s := After(w, pre); addr in s.serverKeys || c !in s.serverKeys || !s.serverKeys[c].keySent
    ensures var s := After(w, pre);
            var steps := DirectorySteps(s, c, dest, ref, addr, n1, n2, p1, p2, stale, request, answer);
            var s' := After(w, pre + steps);
            && GotKey(w, s, s', c, addr, Brought(w, s, addr, stale)) && s'.used == s.used + {ref}
            && (ClientOf(s', c).ended <==> addr !in s.serverKeys && TextReading(w, stale).Incomplete?)
            && request in s'.net && Requests(request, Now(s, c), addr)
  {
    var s, s' := After(w, pre), Init();
    ReachableOk(w, pre);
    request, answer, s' := DirectoryFrom(w, s, c, dest, ref, addr, n1, n2, p1, p2, stale);
    ExecSplit(w, Init(), pre, DirectorySteps(s, c, dest, ref, addr, n1, n2, p1, p2, stale, request, answer));
    EndsExactly(w, s, s', c, addr, stale);
  }
}
