/** The whole system as a step protocol: one server with the crypto extension, any number of clients, and a network that
  may lose, repeat and reorder datagrams. Every party may be restarted, which gives it a new private scalar. */
module Protocol {
  import opened Bytes
  import opened Cipher
  import opened Curve
  import opened PacketState
  import opened Relay
  import opened Sealing
  import Base64
  import Json

  /** Whoever is at an address, from one start to the next: each life has its own private scalar. */
  datatype Party = Party(addr: string, life: nat)

  /** What does not change during a run: the library code, the server's address and the scalars that are drawn. The last
    two are a JSON decoder's answers for keys and address requests in another layout than the printed one. */
  datatype World = World(
    group: Group, aead: Aead, server: string, scalar: Party -> nat,
    otherKey: Bytes -> KeyReading, otherAddr: Bytes -> Option<string>)

  function Pub(w: World, p: Party): Point {
    PublicOf(w.group, w.scalar(p))
  }

  /** The shared value that `p` computes from a public point. */
  function SharedWith(w: World, p: Party, pub: Point): nat {
    Shared(w.group, w.scalar(p), pub)
  }

  function KeyOf(w: World, p: Party, q: Party): Bytes {
    BigEndian(SharedWith(w, p, Pub(w, q)))
  }

  /** What is sealed under another key does not open under the one that `p` shares with a life of the server. */
  ghost predicate Apart(w: World, k: Bytes, p: Party, life: nat) {
    LegalKey(k) && k != KeyOf(w, p, Party(w.server, life)) ==> Separate(w.aead, k, KeyOf(w, p, Party(w.server, life)))
  }

  ghost predicate Sound(w: World) {
    Lawful(w.group) && Ideal(w.aead) && forall k, p, life :: Apart(w, k, p, life)
  }

  lemma SharedSymmetric(w: World, p: Party, q: Party)
    requires Sound(w)
    ensures SharedWith(w, p, Pub(w, q)) == SharedWith(w, q, Pub(w, p)) && KeyOf(w, p, q) == KeyOf(w, q, p)
  {
    Agreement(w.group, w.scalar(p), w.scalar(q));
  }

  // ---------- state ----------

  /** `extended` says whether the transforms are installed on the client's pipelines yet, `ended` whether the program
    has ended in the middle of an exchange; then it takes no further step until it is started anew. */
  datatype Client = Client(keys: Keys, extended: bool, ended: bool)

  const NEW_CLIENT := Client(map[], false, false)

  /** The keys that the client's pipelines use. */
  function InUse(cl: Client): Keys {
    if cl.extended then cl.keys else map[]
  }

  datatype Purpose = ServerKey | ClientKey(addr: string)

  /** An exchange request: who sent it and for which key; it is open until a response has been taken in. */
  datatype Ask = Ask(who: Party, what: Purpose, open: bool)

  /** `dest` is the destination that the sender set on the packet, which decides the key; `against` is the point that
    the frame was sealed against, if it was. All but `wire` only records how the datagram came about. */
  datatype Datagram = Datagram(
    from: Party, to: string, dest: string, meta: Meta, text: string, against: Option<Point>, nonce: Bytes, wire: Bytes)

  /** A datagram that the server has opened, and what it decoded to, on the way to being answered. */
  datatype Taken = Taken(d: Datagram, p: Option<Received>)

  /** `net` holds every datagram ever sent: one that is never received is lost, one received again is repeated. `held`
    are the datagrams the server has opened but not answered yet, `queue` the packets it is to send. `used` holds
    every reference ever put on a packet, `asked` those of exchange requests, `lives` how often each address was
    restarted. */
  datatype State = State(
    lives: map<string, nat>,
    serverKeys: Keys,
    clients: map<string, Client>,
    held: multiset<Taken>,
    queue: multiset<Outgoing>,
    net: set<Datagram>,
    asked: map<string, Ask>,
    used: set<string>)

  function Init(): State {
    State(map[], map[], map[], multiset{}, multiset{}, {}, map[], {""})
  }

  function Latest(lives: map<string, nat>, x: string): Party {
    Party(x, if x in lives then lives[x] else 0)
  }

  function Now(s: State, x: string): Party {
    Latest(s.lives, x)
  }

  function ClientOf(s: State, c: string): Client {
    if c in s.clients then s.clients[c] else NEW_CLIENT
  }

  function ServerEnv(w: World, s: State): Env {
    Env(w.group, w.aead, w.scalar(Now(s, w.server)), w.otherKey, w.otherAddr)
  }

  function Frame(d: Datagram): Bytes {
    Json.Marshal(d.meta, d.text)
  }

  function SealKey(w: World, d: Datagram): Bytes
    requires d.against.Some?
  {
    BigEndian(SharedWith(w, d.from, d.against.value))
  }

  /** The text of a packet with a public key in it. */
  function KeyData(w: World, p: Party): string {
    Base64.Encode(PrintKey(Pub(w, p)))
  }

  /** Base64 text as a recycled packet takes it in. */
  function Content(m: Meta, text: string): Option<Received> {
    match Base64.Decode(text)
    case None => None
    case Some(b) => Some(Received(m, b))
  }

  // ---------- steps ----------

  datatype Step =
    | SendApp(c: string, dest: string, meta: Meta, text: string, nonce: Bytes)
    | AskServer(c: string, dest: string, ref: string, nonce: Bytes)
    | AskClient(c: string, dest: string, ref: string, addr: string, nonce: Bytes)
    | ServerOpen(d: Datagram, pooled: PktState)
    | ServerAnswer(t: Taken, stale: string)
    | ServerEmit(o: Outgoing, resolves: bool, nonce: Bytes, stale: string)
    | ClientReceive(d: Datagram, pooled: PktState)
    | Extend(c: string)
    | Restart(x: string)

  predicate Seals(keys: Keys, m: Meta, dest: string) {
    !Exempt(m) && dest in keys && keys[dest].keySent
  }

  function Against(keys: Keys, m: Meta, dest: string): Option<Point> {
    if Seals(keys, m, dest) then Some(keys[dest].public) else None
  }

  /** A client's packet goes to the server, whatever its destination, through the transform if that is installed. */
  function Outbound(w: World, s: State, c: string, dest: string, m: Meta, text: string,
                    nonce: Bytes): Option<Datagram> {
    var keys := InUse(ClientOf(s, c));
    var r := EncryptTransport(w.aead, keys, m, dest, nonce, Json.Marshal(m, text));
    if r.err.Some? then None
    else Some(Datagram(Now(s, c), w.server, dest, m, text, Against(keys, m, dest), nonce, r.data))
  }

  /** If sealing fails nothing is sent. */
  function SendFrame(w: World, s: State, c: string, dest: string, m: Meta, text: string, nonce: Bytes): State {
    var cl := ClientOf(s, c);
    var r := EncryptTransport(w.aead, InUse(cl), m, dest, nonce, Json.Marshal(m, text));
    match Outbound(w, s, c, dest, m, text, nonce)
    case None => s
    case Some(d) =>
      s.(clients := if cl.extended then s.clients[c := cl.(keys := r.keys)] else s.clients, net := s.net + {d})
  }

  function RequestMeta(ref: string, target: string): Meta {
    map[KEY_REF := ref][KEY_TARGET := target]
  }

  /** What a client's incoming pipeline makes of a datagram. */
  function ClientOpen(w: World, cl: Client, wire: Bytes): Bytes
    requires CanOpen(InUse(cl), w.server, wire)
  {
    DecryptTransport(w.aead, InUse(cl), w.server, wire)
  }

  function Owner(w: World, what: Purpose): string {
    if what.ServerKey? then w.server else what.addr
  }

  /** The client waits for a response with this reference. */
  predicate Awaits(s: State, c: string, ref: string) {
    ref in s.asked && s.asked[ref].open && s.asked[ref].who == Now(s, c)
  }

  function Answered(s: State, ref: string): State
    requires ref in s.asked
  {
    s.(asked := s.asked[ref := s.asked[ref].(open := false)])
  }

  function Store(w: World, s: State, c: string, addr: string, pub: Point): State {
    var cl := ClientOf(s, c);
    s.(clients := s.clients[c := cl.(keys := Install(w.group, w.scalar(Now(s, c)), cl.keys, addr, pub, true))])
  }

  /** The program of the client ends. */
  function End(s: State, c: string): State {
    s.(clients := s.clients[c := ClientOf(s, c).(ended := true)])
  }

  function ReadingOf(w: World, data: Bytes): KeyReading {
    ReadKey(data, w.otherKey(data))
  }

  /** The first packet with the reference of an exchange that the client waits for is processed as the answer to it;
    error marks on the packet are not looked at. A response that overtakes the registration of its request counts as
    lost. */
  function Learn(w: World, s: State, c: string, p: Option<Received>): State {
    if p.None? || !Awaits(s, c, Ref(p.value)) then s
    else
      var s' := Answered(s, Ref(p.value));
      match ReadingOf(w, p.value.data)
      case NoKey => s'
      case Incomplete => End(s', c)
      case Complete(pub) => Store(w, s', c, Owner(w, s.asked[Ref(p.value)].what), pub)
  }

  /** A new process at an address: no keys, no transforms, nothing queued, and the next scalar. */
  function Restarted(w: World, s: State, x: string): State {
    var s' := s.(lives := s.lives[x := Now(s, x).life + 1]);
    if x == w.server then s'.(serverKeys := map[], held := multiset{}, queue := multiset{})
    else s'.(clients := s.clients[x := NEW_CLIENT])
  }

  /** There is a client at the address whose program has not ended. */
  predicate Alive(w: World, s: State, c: string) {
    c != w.server && !ClientOf(s, c).ended
  }

  /** When a step can be taken. Applications use their own references, other than those of exchanges, and leave the
    exchange targets to the extension; a reference for an exchange is new. */
  predicate Enabled(w: World, s: State, step: Step) {
    match step
    case SendApp(c, dest, m, text, nonce) =>
      && Alive(w, s, c) && |nonce| == NONCE_SIZE
      && KEY_REF in m && m[KEY_REF] !in s.asked
      && Get(m, KEY_TARGET) != TARGET_KEX_SERVER && Get(m, KEY_TARGET) != TARGET_KEX_CLIENT
    case AskServer(c, dest, ref, nonce) => Alive(w, s, c) && |nonce| == NONCE_SIZE && ref !in s.used
    case AskClient(c, dest, ref, addr, nonce) =>
      Alive(w, s, c) && |nonce| == NONCE_SIZE && ref !in s.used && addr != w.server && PlainText(addr)
    case ServerOpen(d, pooled) => d in s.net && d.to == w.server && CanOpen(s.serverKeys, d.from.addr, d.wire)
    case ServerAnswer(t, stale) => t in s.held
    case ServerEmit(o, resolves, nonce, stale) => o in s.queue && |nonce| == NONCE_SIZE
    case ClientReceive(d, pooled) =>
      d in s.net && Alive(w, s, d.to) && CanOpen(InUse(ClientOf(s, d.to)), w.server, d.wire)
    case Extend(c) => Alive(w, s, c)
    case Restart(x) => true
  }

  function UseRef(s: State, ref: string): State {
    s.(used := s.used + {ref})
  }

  function NewAsk(s: State, ref: string, c: string, what: Purpose): State {
    UseRef(s, ref).(asked := s.asked[ref := Ask(Now(s, c), what, true)])
  }

  /** The server opens a datagram with the keys it has then; it answers later, with the keys it has by then. */
  function Opened(w: World, s: State, d: Datagram, pooled: PktState): Taken
    requires CanOpen(s.serverKeys, d.from.addr, d.wire)
  {
    Taken(d, Receive(pooled, DecryptTransport(w.aead, s.serverKeys, d.from.addr, d.wire), Reject))
  }

  function AfterReceive(s: State, r: Reply): State {
    s.(serverKeys := r.keys, queue := s.queue + multiset{r.out})
  }

  function AfterAnswer(w: World, s: State, t: Taken, stale: string): State {
    AfterReceive(s.(held := s.held - multiset{t}), Handle(ServerEnv(w, s), s.serverKeys, t.d.from.addr, t.p, stale))
  }

  function Sent(w: World, s: State, o: Outgoing, nonce: Bytes, wire: Bytes): Datagram {
    Datagram(Now(s, w.server), o.dest, o.dest, o.meta, o.text, Against(s.serverKeys, o.meta, o.dest), nonce, wire)
  }

  function AfterEmit(w: World, s: State, o: Outgoing, nonce: Bytes, x: Emission): State {
    var rest := s.queue - multiset{o};
    match x
    case Dropped => s.(queue := rest)
    case Written(keys, wire) => s.(serverKeys := keys, queue := rest, net := s.net + {Sent(w, s, o, nonce, wire)})
    case Requeued(keys, err) => s.(serverKeys := keys, queue := rest + multiset{err})
  }

  predicate IsSend(step: Step) {
    step.SendApp? || step.AskServer? || step.AskClient?
  }

  /** What a client sends: the state it sends from, and the packet's metadata and text. */
  function Prepared(s: State, step: Step): State
    requires IsSend(step)
  {
    match step
    case SendApp(c, dest, m, text, nonce) => UseRef(s, Get(m, KEY_REF))
    case AskServer(c, dest, ref, nonce) => NewAsk(s, ref, c, ServerKey)
    case AskClient(c, dest, ref, addr, nonce) => NewAsk(s, ref, c, ClientKey(addr))
  }

  function MetaOf(step: Step): Meta
    requires IsSend(step)
  {
    match step
    case SendApp(c, dest, m, text, nonce) => m
    case AskServer(c, dest, ref, nonce) => RequestMeta(ref, TARGET_KEX_SERVER)
    case AskClient(c, dest, ref, addr, nonce) => RequestMeta(ref, TARGET_KEX_CLIENT)
  }

  function TextOf(w: World, s: State, step: Step): string
    requires IsSend(step)
  {
    match step
    case SendApp(c, dest, m, text, nonce) => text
    case AskServer(c, dest, ref, nonce) => KeyData(w, Now(s, c))
    case AskClient(c, dest, ref, addr, nonce) => Base64.Encode(PrintAddr(addr))
  }

  function DoSend(w: World, s: State, step: Step): State
    requires IsSend(step)
  {
    SendFrame(w, Prepared(s, step), step.c, step.dest, MetaOf(step), TextOf(w, s, step), step.nonce)
  }

  /** A step that cannot be taken changes nothing. */
  function Do(w: World, s: State, step: Step): State {
    if !Enabled(w, s, step) then s
    else if IsSend(step) then DoSend(w, s, step)
    else match step
      case ServerOpen(d, pooled) => s.(held := s.held + multiset{Opened(w, s, d, pooled)})
      case ServerAnswer(t, stale) => AfterAnswer(w, s, t, stale)
      case ServerEmit(o, resolves, nonce, stale) =>
        AfterEmit(w, s, o, nonce, Emit(w.aead, s.serverKeys, o, resolves, nonce, stale))
      case ClientReceive(d, pooled) =>
        Learn(w, s, d.to, Receive(pooled, ClientOpen(w, ClientOf(s, d.to), d.wire), Reject))
      case Extend(c) => s.(clients := s.clients[c := ClientOf(s, c).(extended := true)])
      case Restart(x) => Restarted(w, s, x)
  }

  function Exec(w: World, s: State, steps: seq<Step>): State {
    if steps == [] then s else Do(w, Exec(w, s, steps[..|steps| - 1]), steps[|steps| - 1])
  }

  // ---------- what every reachable state satisfies ----------

  /** A stored value belongs to the stored point and the scalar of its owner. */
  predicate StoreOk(w: World, owner: Party, k: KeyInfo) {
    k.shared == SharedWith(w, owner, k.public)
  }

  predicate PointOf(w: World, lives: map<string, nat>, x: string, life: int, pub: Point) {
    0 <= life <= Latest(lives, x).life && pub == Pub(w, Party(x, life))
  }

  /** A public point of this or an earlier life at the address. */
  ghost predicate Genuine(w: World, lives: map<string, nat>, x: string, pub: Point) {
    exists life :: PointOf(w, lives, x, life, pub)
  }

  /** The bytes on the wire are the frame, or the frame sealed under the value the sender shares with a point. */
  ghost predicate WireOk(w: World, d: Datagram) {
    && |d.nonce| == NONCE_SIZE
    && match d.against
       case None => d.wire == Frame(d)
       case Some(_) => EncryptAES(w.aead, SealKey(w, d), d.nonce, Frame(d)) == Ok(d.wire)
  }

  /** What arrives at the server: exchange requests are what they claim. */
  ghost predicate RequestOk(w: World, s: State, d: Datagram) {
    && KEY_REF in d.meta && d.meta[KEY_REF] in s.used
    && RequestIs(w, s, d.from, d.text, d.meta[KEY_REF], Get(d.meta, KEY_TARGET))
  }

  predicate AskedBy(s: State, ref: string, who: Party) {
    ref in s.asked && s.asked[ref].who == who
  }

  ghost predicate RequestIs(w: World, s: State, from: Party, text: string, ref: string, target: string) {
    if target == TARGET_KEX_SERVER then
      AskedBy(s, ref, from) && s.asked[ref].what.ServerKey? && text == KeyData(w, from)
    else if target == TARGET_KEX_CLIENT then
      && AskedBy(s, ref, from) && s.asked[ref].what.ClientKey?
      && text == Base64.Encode(PrintAddr(s.asked[ref].what.addr))
    else ref !in s.asked
  }

  /** What a life `src` of the server sends: with the reference of an exchange only to the asker; a request for the
    server's key is answered with it, unsealed, and the asker's key is then stored. */
  ghost predicate OutOk(w: World, s: State, src: Party, dest: string, m: Meta, text: string) {
    && KEY_REF in m && m[KEY_REF] in s.used && Get(m, KEY_TARGET) == ""
    && (m[KEY_REF] in s.asked ==> AnswerOk(w, s, src, dest, m, text, s.asked[m[KEY_REF]]))
  }

  ghost predicate AnswerOk(w: World, s: State, src: Party, dest: string, m: Meta, text: string, ask: Ask) {
    && dest == ask.who.addr
    && (ask.what.ServerKey? ==>
          Exempt(m) && text == KeyData(w, src) && (src == Now(s, w.server) ==> dest in s.serverKeys))
  }

  /** What is sealed between a client and the server is sealed against a point of its destination. */
  ghost predicate SealedOk(w: World, lives: map<string, nat>, d: Datagram) {
    d.against.Some? && (d.from.addr == w.server || d.dest == w.server) ==> Genuine(w, lives, d.dest, d.against.value)
  }

  ghost predicate DatagramOk(w: World, s: State, d: Datagram) {
    && WireOk(w, d) && d.from.life <= Now(s, d.from.addr).life && SealedOk(w, s.lives, d)
    && (d.to == w.server ==> RequestOk(w, s, d))
    && (d.to != w.server ==> d.from.addr == w.server)
    && (d.from.addr == w.server ==> d.dest == d.to && OutOk(w, s, d.from, d.to, d.meta, d.text))
  }

  ghost predicate ServerOk(w: World, s: State) {
    && w.server !in s.serverKeys
    && forall x :: x in s.serverKeys ==> EntryOk(w, s.lives, x, s.serverKeys[x])
  }

  ghost predicate EntryOk(w: World, lives: map<string, nat>, x: string, k: KeyInfo) {
    StoreOk(w, Latest(lives, w.server), k) && Genuine(w, lives, x, k.public)
  }

  ghost predicate AskOk(w: World, s: State, r: string) {
    && r in s.asked && r in s.used
    && s.asked[r].who.addr != w.server && s.asked[r].who.life <= Now(s, s.asked[r].who.addr).life
    && (s.asked[r].what.ClientKey? ==> s.asked[r].what.addr != w.server && PlainText(s.asked[r].what.addr))
  }

  /** A client's keys are computed from its own scalar, and marked as sent. */
  ghost predicate ClientOk(w: World, s: State, c: string) {
    var keys := ClientOf(s, c).keys;
    && (forall x :: x in keys ==> keys[x].keySent && StoreOk(w, Now(s, c), keys[x]))
    && (w.server in keys ==> Genuine(w, s.lives, w.server, keys[w.server].public))
  }

  /** What the server holds came over the network, and was read as it was sent or not at all. */
  predicate HeldOk(w: World, s: State, t: Taken) {
    t.d in s.net && t.d.to == w.server && (t.p == None || t.p == Content(t.d.meta, t.d.text))
  }

  ghost predicate HeldAll(w: World, s: State) {
    forall t :: t in s.held ==> HeldOk(w, s, t)
  }

  ghost predicate Inv(w: World, s: State) {
    && ServerOk(w, s) && w.server !in s.clients
    && "" in s.used && "" !in s.asked
    && (forall r :: r in s.asked ==> AskOk(w, s, r))
    && (forall c :: ClientOk(w, s, c))
    && (forall d :: d in s.net ==> DatagramOk(w, s, d))
    && HeldAll(w, s)
    && (forall o :: o in s.queue ==> OutOk(w, s, Now(s, w.server), o.dest, o.meta, o.text))
  }

  // ---------- what was true stays true ----------

  predicate SameAsk(a: Ask, b: Ask) {
    a.who == b.who && a.what == b.what
  }

  /** What no step takes back: references, datagrams, what exchanges were for, lives, and the keys of one life of the
    server. */
  ghost predicate Grows(w: World, s: State, s': State) {
    && s.used <= s'.used && s.net <= s'.net
    && (forall r :: r in s.asked ==> r in s'.asked && SameAsk(s'.asked[r], s.asked[r]))
    && (forall r :: r in s'.asked && r !in s.asked ==> r !in s.used)
    && (forall x :: Now(s, x).life <= Now(s', x).life)
    && (Now(s', w.server) == Now(s, w.server) ==> s.serverKeys.Keys <= s'.serverKeys.Keys)
  }

  lemma GenuineStays(w: World, s: State, s': State, x: string, pub: Point)
    requires Grows(w, s, s') && Genuine(w, s.lives, x, pub)
    ensures Genuine(w, s'.lives, x, pub)
  {
    var life :| PointOf(w, s.lives, x, life, pub);
    assert Now(s, x).life <= Now(s', x).life;
    assert PointOf(w, s'.lives, x, life, pub);
  }

  lemma OutStays(w: World, s: State, s': State, src: Party, dest: string, m: Meta, text: string)
    requires Grows(w, s, s') && OutOk(w, s, src, dest, m, text)
    requires src.addr == w.server && src.life <= Now(s, w.server).life
    ensures OutOk(w, s', src, dest, m, text)
  {
    assert Now(s, w.server).life <= Now(s', w.server).life;
  }

  lemma DatagramStays(w: World, s: State, s': State, d: Datagram)
    requires Grows(w, s, s') && DatagramOk(w, s, d)
    ensures DatagramOk(w, s', d)
  {
    assert Now(s, d.from.addr).life <= Now(s', d.from.addr).life;
    if d.against.Some? && (d.from.addr == w.server || d.dest == w.server) {
      GenuineStays(w, s, s', d.dest, d.against.value);
    }
    if d.from.addr == w.server {
      OutStays(w, s, s', d.from, d.to, d.meta, d.text);
    }
  }

  /** A client whose table is not touched stays right. */
  lemma ClientStays(w: World, s: State, s': State, c: string)
    requires Grows(w, s, s') && ClientOk(w, s, c)
    requires ClientOf(s', c).keys == ClientOf(s, c).keys && Now(s', c) == Now(s, c)
    ensures ClientOk(w, s', c)
  {
    var keys := ClientOf(s, c).keys;
    if w.server in keys {
      GenuineStays(w, s, s', w.server, keys[w.server].public);
    }
  }

  lemma AskStays(w: World, s: State, s': State, r: string)
    requires Grows(w, s, s') && AskOk(w, s, r)
    ensures AskOk(w, s', r)
  {
    assert Now(s, s.asked[r].who.addr).life <= Now(s', s.asked[r].who.addr).life;
  }

  lemma HeldStays(w: World, s: State, s': State)
    requires HeldAll(w, s) && s.net <= s'.net && (s'.held == s.held || HeldAll(w, s'))
    ensures HeldAll(w, s')
  {
    if s'.held == s.held {
      forall t | t in s'.held
        ensures HeldOk(w, s', t)
      {
        assert HeldOk(w, s, t);
      }
    }
  }

  /** The frame of the invariant: a step adds at most one datagram and one queued packet and touches one client. */
  lemma Keeps(w: World, s: State, s': State, d: Option<Datagram>, o: Option<Outgoing>, c: string)
    requires Inv(w, s) && Grows(w, s, s')
    requires ServerOk(w, s') && w.server !in s'.clients
    requires forall r :: r in s'.asked && r !in s.asked ==> AskOk(w, s', r)
    requires forall x :: x != c ==> ClientOf(s', x).keys == ClientOf(s, x).keys && Now(s', x) == Now(s, x)
    requires ClientOk(w, s', c)
    requires forall x :: x in s'.net ==> x in s.net || (d.Some? && x == d.value)
    requires d.Some? ==> DatagramOk(w, s', d.value)
    requires s'.held == s.held || HeldAll(w, s')
    requires s'.queue == multiset{} || Now(s', w.server) == Now(s, w.server)
    requires forall x :: x in s'.queue ==> x in s.queue || (o.Some? && x == o.value)
    requires o.Some? ==> OutOk(w, s', Now(s', w.server), o.value.dest, o.value.meta, o.value.text)
    ensures Inv(w, s')
  {
    forall r | r in s'.asked
      ensures AskOk(w, s', r)
    {
      if r in s.asked {
        AskStays(w, s, s', r);
      }
    }
    assert "" !in s'.asked;
    forall x
      ensures ClientOk(w, s', x)
    {
      if x != c {
        ClientStays(w, s, s', x);
      }
    }
    forall x | x in s'.net
      ensures DatagramOk(w, s', x)
    {
      if x in s.net {
        DatagramStays(w, s, s', x);
      }
    }
    HeldStays(w, s, s');
    forall x | x in s'.queue
      ensures OutOk(w, s', Now(s', w.server), x.dest, x.meta, x.text)
    {
      if x in s.queue {
        OutStays(w, s, s', Now(s, w.server), x.dest, x.meta, x.text);
      }
    }
  }

  /** The same for a step that touches no client and no reference. */
  lemma KeepsServer(w: World, s: State, s': State, d: Option<Datagram>, o: Option<Outgoing>)
    requires Inv(w, s) && ServerOk(w, s') && s.serverKeys.Keys <= s'.serverKeys.Keys
    requires s' == s.(serverKeys := s'.serverKeys, queue := s'.queue, net := s'.net)
    requires s'.net == s.net || (d.Some? && s'.net == s.net + {d.value})
    requires d.Some? ==> DatagramOk(w, s', d.value)
    requires s'.queue <= s.queue || (o.Some? && s'.queue == s.queue + multiset{o.value})
    requires o.Some? ==> OutOk(w, s', Now(s', w.server), o.value.dest, o.value.meta, o.value.text)
    ensures Inv(w, s')
  {
    assert Grows(w, s, s');
    ClientStays(w, s, s', "");
    Keeps(w, s, s', d, o, "");
  }
}
