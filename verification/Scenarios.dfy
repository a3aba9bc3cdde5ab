/** Runs from the very first state: how clients become ready to relay, and how what one hopes for can fail. */
module Scenarios {
  import opened Bytes
  import opened Cipher
  import opened Curve
  import opened PacketState
  import opened Relay
  import opened Sealing
  import opened Protocol
  import opened Runs
  import opened Histories
  import opened Steady
  import opened EndToEnd
  import opened Exchanges
  import opened Stuck
  import opened Worlds
  import Base64
  import Json

  lemma OneMore(w: World, steps: seq<Step>, step: Step)
    ensures After(w, steps + [step]) == Do(w, After(w, steps), step)
  {
    assert (steps + [step])[..|steps|] == steps;
  }

  lemma TwoMore(w: World, steps: seq<Step>, a: Step, b: Step)
    ensures After(w, steps + [a, b]) == Do(w, Do(w, After(w, steps), a), b)
  {
    OneMore(w, steps, a);
    OneMore(w, steps + [a], b);
    assert steps + [a, b] == steps + [a] + [b];
  }

  lemma ThreeMore(w: World, steps: seq<Step>, a: Step, b: Step, c: Step)
    ensures After(w, steps + [a, b, c]) == Do(w, Do(w, Do(w, After(w, steps), a), b), c)
  {
    TwoMore(w, steps, a, b);
    OneMore(w, steps + [a, b], c);
    assert steps + [a, b, c] == steps + [a, b] + [c];
  }

  lemma JoinSteps(a: seq<Step>, b: seq<Step>, c: seq<Step>)
    ensures a + (b + c) == a + b + c
  {
  }

  lemma AskedAreUsed(w: World, s: State)
    requires Inv(w, s)
    ensures s.asked.Keys <= s.used
  {
    forall r | r in s.asked
      ensures r in s.used
    {
      assert AskOk(w, s, r);
    }
  }

  // ---------- exchanges, one after the other ----------

  predicate AllTame(steps: seq<Step>) {
    forall i :: 0 <= i < |steps| ==> Tame(steps[i])
  }

  /** The exchange of a client that has nothing installed yet. */
  lemma FirstExchange(w: World, pre: seq<Step>, c: string, ref: string, nonce: Bytes)
    returns (steps: seq<Step>, answer: Datagram)
    requires Sound(w) && Alive(w, After(w, pre), c) && |nonce| == NONCE_SIZE
    requires ref !in After(w, pre).used && !ClientOf(After(w, pre), c).extended
    ensures AllTame(steps)
    ensures var s, s' := After(w, pre), After(w, pre + steps);
            && Exchanged(w, s, s', c) && s'.used == s.used + {ref}
            && answer in s'.net && answer.from == Now(s, w.server) && answer.text == KeyData(w, Now(s, w.server))
  {
    var s := After(w, pre);
    PlainReaches(w, s, AskServer(c, w.server, ref, nonce));
    var request;
    request, answer := ServerExchange(w, pre, c, w.server, ref, nonce, nonce, FRESH, FRESH, "");
    steps := ExchangeSteps(w, s, c, w.server, ref, nonce, nonce, FRESH, FRESH, "", request, answer);
    ExchangeTame(w, s, c, ref, nonce, request, answer);
  }

  lemma ExchangeTame(w: World, s: State, c: string, ref: string, nonce: Bytes, request: Datagram, answer: Datagram)
    ensures AllTame(ExchangeSteps(w, s, c, w.server, ref, nonce, nonce, FRESH, FRESH, "", request, answer))
  {
    KeyReplyExempt(ref, c, Pub(w, Now(s, w.server)));
  }

  lemma DirectoryTame(w: World, s: State, c: string, ref: string, addr: string, nonce: Bytes, request: Datagram,
                      answer: Datagram)
    requires addr in s.serverKeys
    ensures AllTame(DirectorySteps(s, c, w.server, ref, addr, nonce, nonce, FRESH, FRESH, "", request, answer))
  {
    KeyReplyExempt(ref, c, s.serverKeys[addr].public);
  }

  /** A request of such a client for a key that the server has. */
  lemma PeerExchange(w: World, pre: seq<Step>, c: string, addr: string, ref: string, nonce: Bytes)
    returns (steps: seq<Step>)
    requires Sound(w) && Alive(w, After(w, pre), c) && addr != w.server && PlainText(addr) && |nonce| == NONCE_SIZE
    requires ref !in After(w, pre).used && !ClientOf(After(w, pre), c).extended && addr in After(w, pre).serverKeys
    ensures AllTame(steps)
    ensures var s, s' := After(w, pre), After(w, pre + steps);
            GotKey(w, s, s', c, addr, Complete(s.serverKeys[addr].public)) && s'.used == s.used + {ref}
  {
    var s := After(w, pre);
    PlainReaches(w, s, AskClient(c, w.server, ref, addr, nonce));
    var request, answer := ClientExchange(w, pre, c, w.server, ref, addr, nonce, nonce, FRESH, FRESH, "");
    steps := DirectorySteps(s, c, w.server, ref, addr, nonce, nonce, FRESH, FRESH, "", request, answer);
    DirectoryTame(w, s, c, ref, addr, nonce, request, answer);
  }

  /** The client runs, and it and the server have each other's current points. */
  predicate Introduced(w: World, s: State, c: string) {
    && c in s.serverKeys && s.serverKeys[c].public == Pub(w, Now(s, c)) && Alive(w, s, c)
    && w.server in ClientOf(s, c).keys && ClientOf(s, c).keys[w.server].public == Pub(w, Now(s, w.server))
  }

  /** Both clients have exchanged keys with the server. */
  lemma BothExchanged(w: World, a: string, b: string, r0: string, r1: string, nonce: Bytes) returns (steps: seq<Step>)
    requires Sound(w) && a != w.server && b != w.server && a != b && |nonce| == NONCE_SIZE
    requires r0 != "" && r1 != "" && r0 != r1
    ensures AllTame(steps)
    ensures var s := After(w, steps);
            && s.used == {"", r0, r1} && s.lives == map[]
            && Introduced(w, s, a) && !ClientOf(s, a).extended && Introduced(w, s, b) && !ClientOf(s, b).extended
  {
    assert After(w, []) == Init();
    var first, _ := FirstExchange(w, [], b, r0, nonce);
    assert [] + first == first;
    var second, _ := FirstExchange(w, first, a, r1, nonce);
    steps := first + second;
  }

  /** The client has the current point of another. */
  predicate HasPeer(w: World, s: State, c: string, peer: string) {
    peer in ClientOf(s, c).keys && ClientOf(s, c).keys[peer].public == Pub(w, Now(s, peer))
  }

  /** And `a` has the key of `b`. */
  lemma AllExchanged(w: World, a: string, b: string, r0: string, r1: string, r2: string, nonce: Bytes)
    returns (steps: seq<Step>)
    requires Sound(w) && a != w.server && b != w.server && a != b && PlainText(b) && |nonce| == NONCE_SIZE
    requires r0 != "" && r1 != "" && r2 != "" && r0 != r1 && r0 != r2 && r1 != r2
    ensures AllTame(steps)
    ensures var s := After(w, steps);
            && s.used == {"", r0, r1, r2} && s.lives == map[] && HasPeer(w, s, a, b)
            && Introduced(w, s, a) && !ClientOf(s, a).extended && Introduced(w, s, b) && !ClientOf(s, b).extended
  {
    var both := BothExchanged(w, a, b, r0, r1, nonce);
    var more := PeerExchange(w, both, a, b, r2, nonce);
    steps := both + more;
  }

  /** Two clients that are ready to relay to each other: each has completed its exchange with the server, is in step
    with it, and has the other's current point. So the guarantees for such clients are about something. */
  lemma ReadyToRelay(w: World, a: string, b: string, r0: string, r1: string, r2: string, r3: string, nonce: Bytes)
    returns (steps: seq<Step>)
    requires Sound(w) && a != w.server && b != w.server && a != b && PlainText(a) && PlainText(b)
    requires |nonce| == NONCE_SIZE
    requires "" !in {r0, r1, r2, r3} && r0 != r1 && r0 != r2 && r1 != r2 && r3 !in {r0, r1, r2}
    ensures var s := After(w, steps);
            && Completed(w, s, a) && InStep(w, s, a) && HasPeer(w, s, a, b)
            && Completed(w, s, b) && InStep(w, s, b) && HasPeer(w, s, b, a)
  {
    var pre := AllExchanged(w, a, b, r0, r1, r2, nonce);
    var more := PeerExchange(w, pre, b, a, r3, nonce);
    steps := pre + more + [Extend(a), Extend(b)];
    TwoMore(w, pre + more, Extend(a), Extend(b));
    TameInStep(w, steps, a);
    TameInStep(w, steps, b);
  }

  // ---------- a refusal becomes a key ----------

  lemma DirectoryShape(s: State, c: string, dest: string, ref: string, addr: string, nonce: Bytes, stale: string,
                       request: Datagram, answer: Datagram)
    ensures var steps := DirectorySteps(s, c, dest, ref, addr, nonce, nonce, FRESH, FRESH, stale, request, answer);
            && |steps| == 5 && steps[1] == ServerOpen(request, FRESH)
            && steps[2] == ServerAnswer(Read(request), stale)
  {
  }

  /** A request that is refused, with this text left over in the error packet. */
  lemma RefusedExchange(w: World, pre: seq<Step>, c: string, addr: string, ref: string, nonce: Bytes, stale: string)
    returns (steps: seq<Step>, request: Datagram)
    requires Sound(w) && Alive(w, After(w, pre), c) && addr != w.server && PlainText(addr) && |nonce| == NONCE_SIZE
    requires var s := After(w, pre);
             && ref !in s.used && !ClientOf(s, c).extended && addr !in s.serverKeys
             && (c in s.serverKeys ==> !s.serverKeys[c].keySent)
    ensures |steps| == 5 && steps[1] == ServerOpen(request, FRESH) && steps[2] == ServerAnswer(Read(request), stale)
    ensures var s, s' := After(w, pre), After(w, pre + steps);
            && GotKey(w, s, s', c, addr, TextReading(w, stale)) && s'.used == s.used + {ref}
            && request in s'.net && Requests(request, Now(s, c), addr)
  {
    var s := After(w, pre);
    PlainReaches(w, s, AskClient(c, w.server, ref, addr, nonce));
    var answer;
    request, answer := ClientExchange(w, pre, c, w.server, ref, addr, nonce, nonce, FRESH, FRESH, stale);
    steps := DirectorySteps(s, c, w.server, ref, addr, nonce, nonce, FRESH, FRESH, stale, request, answer);
    DirectoryShape(s, c, w.server, ref, addr, nonce, stale, request, answer);
  }

  /** A client asks for the key of an address the server does not know. The error packet is one that carried the
    server's own key before, and the client ends up with the server's point as that of the address. */
  lemma RefusalBecomesKey(w: World, c: string, addr: string, r0: string, r1: string, nonce: Bytes)
    returns (steps: seq<Step>, earlier: Datagram, request: Datagram)
    requires Sound(w) && c != w.server && addr != w.server && addr != c && PlainText(addr) && |nonce| == NONCE_SIZE
    requires r0 != "" && r1 != "" && r0 != r1
    ensures var s := After(w, steps);
            && earlier in s.net && earlier.from == Now(s, w.server)
            && ServerAnswer(Read(request), earlier.text) in steps
            && addr !in s.serverKeys && addr in ClientOf(s, c).keys
            && ClientOf(s, c).keys[addr].public == Pub(w, Now(s, w.server))
  {
    assert After(w, []) == Init();
    var pre, answer := FirstExchange(w, [], c, r0, nonce);
    assert [] + pre == pre;
    var more, req := RefusedExchange(w, pre, c, addr, r1, nonce, answer.text);
    KeyInText(w, Pub(w, Party(w.server, 0)));
    steps, earlier, request := pre + more, answer, req;
    assert steps[|pre| + 2] == more[2];
    StillThere(w, pre, more, answer);
  }

  // ---------- a refusal ends a client ----------

  lemma AddrInText(w: World, addr: string)
    requires PlainText(addr)
    ensures TextReading(w, Base64.Encode(PrintAddr(addr))) == Incomplete
  {
    Base64.RoundTrip(PrintAddr(addr));
    AddrIsIncomplete(addr, w.otherKey(PrintAddr(addr)));
  }

  lemma NothingInText(w: World)
    ensures TextReading(w, "") == NoKey
  {
    assert Base64.Decode("") == Some([]);
  }

  /** Two clients, or the same one twice, ask for the keys of addresses the server does not know. The second error
    packet is the one that the first request was decoded into. The first client is none the worse for it, but the
    program of the second ends. */
  lemma RefusalEndsClient(w: World, a: string, c: string, addr: string, addr': string, r0: string, r1: string,
                          nonce: Bytes)
    returns (first: seq<Step>, second: seq<Step>, earlier: Datagram, request: Datagram)
    requires Sound(w) && a != w.server && c != w.server && addr != w.server && addr' != w.server
    requires PlainText(addr) && PlainText(addr') && |nonce| == NONCE_SIZE && r0 != "" && r1 != "" && r0 != r1
    ensures ServerOpen(earlier, FRESH) in first && Requests(earlier, Party(a, 0), addr)
    ensures ServerAnswer(Read(request), earlier.text) in second && Requests(request, Party(c, 0), addr')
    ensures var s, s' := After(w, first), After(w, first + second);
            && addr !in s.serverKeys && ClientOf(s, a) == NEW_CLIENT
            && addr' !in s'.serverKeys && !ClientOf(s, c).ended && ClientOf(s', c).ended && !Alive(w, s', c)
  {
    assert After(w, []) == Init();
    first, earlier := RefusedExchange(w, [], a, addr, r0, nonce, "");
    assert [] + first == first;
    NothingInText(w);
    second, request := RefusedExchange(w, first, c, addr', r1, nonce, earlier.text);
    AddrInText(w, addr);
    assert ServerOpen(earlier, FRESH) == first[1];
    assert ServerAnswer(Read(request), earlier.text) == second[2];
  }

  /** What was sent stays on the network, and bears its sender's life. */
  lemma StillThere(w: World, pre: seq<Step>, more: seq<Step>, d: Datagram)
    requires Sound(w) && d in After(w, pre).net
    ensures d in After(w, pre + more).net
  {
    ReachableOk(w, pre);
    ExecSplit(w, Init(), pre, more);
    NetGrows(w, After(w, pre), more);
  }

  // ---------- a packet with the wrong destination ----------

  /** A packet that is to be sealed, under a key of an AES length, is sealed against the stored point of its
    destination. */
  lemma SealedSend(w: World, s: State, c: string, dest: string, m: Meta, text: string, nonce: Bytes)
    returns (d: Datagram)
    requires Inv(w, s) && Enabled(w, s, SendApp(c, dest, m, text, nonce))
    requires var keys := InUse(ClientOf(s, c)); Seals(keys, m, dest) && LegalKey(KeyBytes(keys[dest]))
    ensures var s' := Do(w, s, SendApp(c, dest, m, text, nonce));
            && d in s'.net && s'.serverKeys == s.serverKeys && s'.lives == s.lives && ClientOf(s', c) == ClientOf(s, c)
            && d.from == Now(s, c) && d.to == w.server && d.dest == dest && d.meta == m && d.text == text
            && d.against == Some(ClientOf(s, c).keys[dest].public)
  {
    SendHop(w, s, c, dest, m, text, nonce);
    d := Outbound(w, s, c, dest, m, text, nonce).value;
    assert ClientOk(w, s, c);
    SendStepOnly(w, s, SendApp(c, dest, m, text, nonce));
  }

  /** An application's packet, not exempt, with a reference of its own. */
  predicate AppMeta(m: Meta, used: set<string>) {
    && KEY_REF in m && m[KEY_REF] !in used && !Exempt(m)
    && Get(m, KEY_TARGET) != TARGET_KEX_SERVER && Get(m, KEY_TARGET) != TARGET_KEX_CLIENT
  }

  lemma ExtendSeals(w: World, pre: seq<Step>, c: string, m: Meta, dest: string)
    requires Sound(w) && Alive(w, After(w, pre), c) && dest in ClientOf(After(w, pre), c).keys && !Exempt(m)
    ensures var s, s' := After(w, pre), After(w, pre + [Extend(c)]);
            && s' == s.(clients := s'.clients) && ClientOf(s', c) == ClientOf(s, c).(extended := true)
            && InUse(ClientOf(s', c)) == ClientOf(s', c).keys && Seals(InUse(ClientOf(s', c)), m, dest)
            && KeyBytes(ClientOf(s', c).keys[dest]) ==
               BigEndian(SharedWith(w, Now(s, c), ClientOf(s, c).keys[dest].public))
  {
    OneMore(w, pre, Extend(c));
    ReachableOk(w, pre);
    assert ClientOk(w, After(w, pre), c);
  }

  /** After complete exchanges of `a` and `b` with the server, and of `a` with `b`, the application of `a` sends a
    packet with `b` as its destination. It goes to the server, sealed for `b`, and the server can only answer that it
    is malformed. */
  lemma Misaddressed(w: World, a: string, b: string, r0: string, r1: string, r2: string, m: Meta, text: string,
                     nonce: Bytes,
                     stale: string)
    returns (steps: seq<Step>, d: Datagram)
    requires Sound(w) && a != w.server && b != w.server && a != b && PlainText(b) && |nonce| == NONCE_SIZE
    requires r0 != "" && r1 != "" && r2 != "" && r0 != r1 && r0 != r2 && r1 != r2 && AppMeta(m, {"", r0, r1, r2})
    requires LegalKey(KeyOf(w, Party(a, 0), Party(b, 0)))
    requires KeyOf(w, Party(a, 0), Party(b, 0)) != KeyOf(w, Party(a, 0), Party(w.server, 0))
    ensures steps != [] && steps[|steps| - 1] == SendApp(a, b, m, text, nonce)
    ensures var s := After(w, steps);
            && d in s.net && d.from == Now(s, a) && d.to == w.server && d.meta == m && d.text == text
            && Completed(w, s, a) && Introduced(w, s, a) && !Readable(w, s, d)
            && Do(w, Do(w, s, ServerOpen(d, FRESH)), ServerAnswer(Taken(d, None), stale)) ==
               AfterReceive(s, Reply(s.serverKeys, ErrOut("", a, "malformed packet", stale)))
  {
    var pre := AllExchanged(w, a, b, r0, r1, r2, nonce);
    var s0, ready := After(w, pre), pre + [Extend(a)];
    var s1, send := After(w, ready), SendApp(a, b, m, text, nonce);
    ExtendSeals(w, pre, a, m, b);
    ReachableOk(w, ready);
    AskedAreUsed(w, s1);
    d := SealedSend(w, s1, a, b, m, text, nonce);
    steps := ready + [send];
    OneMore(w, ready, send);
    ReachableOk(w, steps);
    Unfit(w, After(w, steps), d, a, b);
    ServerTakes(w, After(w, steps), d, FRESH, stale);
  }

  /** The server's value for `a` is the one they share, which is not the one the datagram is sealed under. */
  lemma Unfit(w: World, s: State, d: Datagram, a: string, b: string)
    requires Sound(w) && Inv(w, s) && a != w.server && a in s.serverKeys && d.to == w.server
    requires d.from == Party(a, 0) && d.against == Some(Pub(w, Party(b, 0))) && Now(s, w.server) == Party(w.server, 0)
    requires s.serverKeys[a].public == Pub(w, Party(a, 0))
    requires KeyOf(w, Party(a, 0), Party(b, 0)) != KeyOf(w, Party(a, 0), Party(w.server, 0))
    ensures !Readable(w, s, d)
  {
    SharedSymmetric(w, Party(a, 0), Party(w.server, 0));
    assert EntryOk(w, s.lives, a, s.serverKeys[a]);
  }

  // ---------- a late request takes the server back ----------

  /** An unsealed request of a life for an exchange. */
  predicate IsRequest(w: World, d: Datagram, who: Party) {
    d.from == who && d.to == w.server && d.against.None? && Get(d.meta, KEY_TARGET) == TARGET_KEX_SERVER
  }

  lemma FirstAsk(w: World, c: string, ref: string, nonce: Bytes) returns (request: Datagram)
    requires Sound(w) && c != w.server && ref != "" && |nonce| == NONCE_SIZE
    ensures var s := Do(w, Init(), AskServer(c, w.server, ref, nonce));
            request in s.net && IsRequest(w, request, Party(c, 0)) && s.used == {"", ref} && s.lives == map[]
  {
    var ask := AskServer(c, w.server, ref, nonce);
    InitOk(w);
    PlainReaches(w, Init(), ask);
    RequestLeaves(w, Init(), ask);
    request := Sends(w, Init(), ask).value;
    RequestTargets(ref, TARGET_KEX_SERVER);
    PlainLeaves(w, Prepared(Init(), ask), c, w.server, MetaOf(ask), TextOf(w, Init(), ask), nonce);
  }

  /** A client asks for an exchange and starts anew before the request arrives. */
  lemma AskedThenRestarted(w: World, c: string, ref: string, nonce: Bytes) returns (steps: seq<Step>, request: Datagram)
    requires Sound(w) && c != w.server && ref != "" && |nonce| == NONCE_SIZE
    ensures var s := After(w, steps);
            && request in s.net && IsRequest(w, request, Party(c, 0))
            && s.used == {"", ref} && s.lives == map[c := 1] && ClientOf(s, c) == NEW_CLIENT
  {
    var ask := AskServer(c, w.server, ref, nonce);
    request := FirstAsk(w, c, ref, nonce);
    assert After(w, []) == Init();
    OneMore(w, [], ask);
    steps := [] + [ask] + [Restart(c)];
    OneMore(w, [] + [ask], Restart(c));
    RestartLeaves(w, After(w, [] + [ask]), c);
  }

  lemma RestartLeaves(w: World, s: State, c: string)
    requires c != w.server
    ensures var s' := Do(w, s, Restart(c));
            && s'.net == s.net && s'.used == s.used && s'.lives == s.lives[c := Now(s, c).life + 1]
            && ClientOf(s', c) == NEW_CLIENT
  {
  }

  /** The new life completes its exchange and sends a sealed packet, which the server could read. */
  lemma NewLifeSends(w: World, c: string, r0: string, r1: string, m: Meta, text: string, nonce: Bytes)
    returns (steps: seq<Step>, request: Datagram, d: Datagram)
    requires Sound(w) && c != w.server && r0 != "" && r1 != "" && r0 != r1 && |nonce| == NONCE_SIZE
    requires AppMeta(m, {"", r0, r1})
    requires LegalKey(KeyOf(w, Party(c, 1), Party(w.server, 0)))
    ensures var s := After(w, steps);
            && s.lives == map[c := 1] && Completed(w, s, c) && Introduced(w, s, c)
            && request in s.net && IsRequest(w, request, Party(c, 0))
            && d in s.net && d.from == Party(c, 1) && d.to == w.server && d.dest == w.server && d.meta == m
            && d.text == text
            && d.against == Some(Pub(w, Party(w.server, 0))) && Readable(w, s, d)
  {
    var pre;
    pre, request := AskedThenRestarted(w, c, r0, nonce);
    var exchange, _ := FirstExchange(w, pre, c, r1, nonce);
    var done := pre + exchange;
    StillThere(w, pre, exchange, request);
    var ready, send := done + [Extend(c)], SendApp(c, w.server, m, text, nonce);
    ExtendSeals(w, done, c, m, w.server);
    ReachableOk(w, ready);
    AskedAreUsed(w, After(w, ready));
    d := SealedSend(w, After(w, ready), c, w.server, m, text, nonce);
    steps := ready + [send];
    OneMore(w, ready, send);
    StillThere(w, ready, [send], request);
    ReachableOk(w, steps);
    ReadByIntroduced(w, After(w, steps), d, c);
  }

  lemma ReadByIntroduced(w: World, s: State, d: Datagram, c: string)
    requires Sound(w) && Inv(w, s) && Introduced(w, s, c) && d.from == Now(s, c) && d.to == w.server
    requires d.against == Some(Pub(w, Now(s, w.server)))
    ensures Readable(w, s, d)
  {
    SharedSymmetric(w, Now(s, c), Now(s, w.server));
    assert EntryOk(w, s.lives, c, s.serverKeys[c]);
  }

  /** A request of an earlier life that arrives late takes the server's point for the address back, although the later
    life has completed its exchange; and what that life has sealed can no longer be read. */
  lemma LateRequestRollsBack(w: World, c: string, r0: string, r1: string, m: Meta, text: string, nonce: Bytes,
                             stale: string)
    returns (steps: seq<Step>, request: Datagram, d: Datagram)
    requires Sound(w) && c != w.server && r0 != "" && r1 != "" && r0 != r1 && |nonce| == NONCE_SIZE
    requires AppMeta(m, {"", r0, r1})
    requires LegalKey(KeyOf(w, Party(c, 1), Party(w.server, 0)))
    requires KeyOf(w, Party(c, 1), Party(w.server, 0)) != KeyOf(w, Party(c, 0), Party(w.server, 0))
    ensures var late := [ServerOpen(request, FRESH), ServerAnswer(Read(request), stale)];
            var s, s' := After(w, steps), After(w, steps + late);
            && Now(s', c) == Party(c, 1) && Completed(w, s', c)
            && c in s.serverKeys && s.serverKeys[c].public == Pub(w, Party(c, 1))
            && c in s'.serverKeys && s'.serverKeys[c].public == Pub(w, Party(c, 0))
            && d in s.net && d.dest == w.server && Readable(w, s, d) && !Readable(w, s', d)
  {
    steps, request, d := NewLifeSends(w, c, r0, r1, m, text, nonce);
    var s := After(w, steps);
    ReachableOk(w, steps);
    KexAnswer(w, s, request, FRESH, stale);
    TwoMore(w, steps, ServerOpen(request, FRESH), ServerAnswer(Read(request), stale));
    SharedSymmetric(w, Party(c, 0), Party(w.server, 0));
  }

  // ---------- the answer has been sent, but not taken in ----------

  /** Another client has a packet relayed: it is queued for `c`, and nothing else is different. */
  lemma RelayIn(w: World, pre: seq<Step>, a: string, c: string, m: Meta, data: Bytes, nonce: Bytes)
    returns (steps: seq<Step>, o: Outgoing)
    requires Sound(w) && Alive(w, After(w, pre), a) && |nonce| == NONCE_SIZE && !ClientOf(After(w, pre), a).extended
    requires AppMeta(m, After(w, pre).used) && AsksRelay(m, c)
    ensures o == Outgoing(c, ForwardMeta(m[KEY_REF], a), Base64.Encode(data))
    ensures var s, s' := After(w, pre), After(w, pre + steps);
            && s'.queue == s.queue + multiset{o} && s'.serverKeys == s.serverKeys && s'.lives == s.lives
            && s'.used == s.used + {m[KEY_REF]} && (forall x :: ClientOf(s', x) == ClientOf(s, x))
  {
    var s, send := After(w, pre), SendApp(a, w.server, m, Base64.Encode(data), nonce);
    ReachableOk(w, pre);
    var d, s' := RelayTaken(w, s, a, c, m, data, nonce);
    steps := [send, ServerOpen(d, FRESH), ServerAnswer(Read(d), "")];
    ThreeMore(w, pre, steps[0], steps[1], steps[2]);
    o := Outgoing(c, ForwardMeta(m[KEY_REF], a), Base64.Encode(data));
  }

  lemma RelayTaken(w: World, s: State, a: string, c: string, m: Meta, data: Bytes, nonce: Bytes)
    returns (d: Datagram, s': State)
    requires Sound(w) && Inv(w, s) && Alive(w, s, a) && |nonce| == NONCE_SIZE && !ClientOf(s, a).extended
    requires AppMeta(m, s.used) && AsksRelay(m, c)
    ensures s' == Served(w, Do(w, s, SendApp(a, w.server, m, Base64.Encode(data), nonce)), d, FRESH, "")
    ensures s'.queue == s.queue + multiset{Outgoing(c, ForwardMeta(m[KEY_REF], a), Base64.Encode(data))}
    ensures s'.serverKeys == s.serverKeys && s'.lives == s.lives && s'.used == s.used + {m[KEY_REF]}
    ensures forall x :: ClientOf(s', x) == ClientOf(s, x)
  {
    var send := SendApp(a, w.server, m, Base64.Encode(data), nonce);
    AskedAreUsed(w, s);
    PlainReaches(w, s, send);
    RequestLeaves(w, s, send);
    d := Sends(w, s, send).value;
    var s1 := Do(w, s, send);
    StepKeeps(w, s, send);
    ServerTakes(w, s1, d, FRESH, "");
    Base64.RoundTrip(data);
    s' := Served(w, s1, d, FRESH, "");
  }

  lemma ForwardsAreSealed(ref: string, src: string)
    ensures !Exempt(ForwardMeta(ref, src))
  {
    DistinctKeys();
    assert Get(ForwardMeta(ref, src), KEY_NO_CRYPTO) == "";
  }

  lemma FourSteps(w: World, a: Step, b: Step, c: Step, d: Step)
    ensures After(w, [a, b, c, d]) == Do(w, Do(w, Do(w, Do(w, Init(), a), b), c), d)
  {
    assert After(w, []) == Init();
    ThreeMore(w, [], a, b, c);
    OneMore(w, [] + [a, b, c], d);
    assert [] + [a, b, c] + [d] == [a, b, c, d];
  }

  /** What is there when the answer to the first request is on its way. */
  ghost predicate OnItsWay(w: World, s: State, c: string, ref: string, answer: Datagram) {
    && Unready(w, s, c) && s.queue == multiset{} && s.used == {"", ref}
    && (forall x :: ClientOf(s, x) == NEW_CLIENT)
    && answer in s.net && answer.to == c && answer.text == KeyData(w, Party(w.server, 0))
    && (forall x :: x in s.net && x.to == c ==> x == answer)
  }

  lemma AnswerEmitted(w: World, s2: State, c: string, ref: string, nonce: Bytes, request: Datagram)
    returns (answer: Datagram)
    requires c != w.server && |nonce| == NONCE_SIZE && request.to == w.server && s2.net == {request}
    requires s2.queue == multiset{KeyReply(ref, c, Pub(w, Party(w.server, 0)))} && s2.used == {"", ref}
    requires Unready(w, s2, c) && forall x :: ClientOf(s2, x) == NEW_CLIENT
    ensures var reply := KeyReply(ref, c, Pub(w, Party(w.server, 0)));
            OnItsWay(w, Do(w, s2, ServerEmit(reply, true, nonce, "")), c, ref, answer)
  {
    var reply := KeyReply(ref, c, Pub(w, Party(w.server, 0)));
    KeyReplyExempt(ref, c, Pub(w, Party(w.server, 0)));
    answer := ExemptLeaves(w, s2, reply, nonce, "");
    var s := Do(w, s2, ServerEmit(reply, true, nonce, ""));
    assert s.queue == multiset{};
    assert s.net == {request, answer};
    assert answer.text == KeyData(w, Party(w.server, 0));
    assert forall x :: ClientOf(s, x) == ClientOf(s2, x);
    assert Unready(w, s, c);
  }

  /** Nothing has happened yet. */
  ghost predicate Blank(s: State) {
    && s.lives == map[] && s.net == {} && s.queue == multiset{} && s.used == {""}
    && forall x :: ClientOf(s, x) == NEW_CLIENT
  }

  lemma FirstRequested(w: World, s: State, c: string, ref: string, nonce: Bytes) returns (d: Datagram, s': State)
    requires Sound(w) && Inv(w, s) && Blank(s) && c != w.server && ref != "" && |nonce| == NONCE_SIZE
    ensures s' == Served(w, Do(w, s, AskServer(c, w.server, ref, nonce)), d, FRESH, "")
    ensures d.to == w.server && s'.net == {d} && s'.queue == multiset{KeyReply(ref, c, Pub(w, Party(w.server, 0)))}
    ensures s'.used == {"", ref} && Unready(w, s', c) && forall x :: ClientOf(s', x) == NEW_CLIENT
  {
    PlainReaches(w, s, AskServer(c, w.server, ref, nonce));
    d, s' := ExchangeRequested(w, s, c, w.server, ref, nonce, FRESH, "");
    FirstFacts(w, s, s', c, ref, d);
  }

  lemma FirstFacts(w: World, s: State, s': State, c: string, ref: string, d: Datagram)
    requires Blank(s) && s'.lives == s.lives && s'.used == s.used + {ref} && s'.net == s.net + {d}
    requires s'.queue == s.queue + multiset{KeyReply(ref, c, Pub(w, Now(s, w.server)))}
    requires s'.serverKeys == Install(w.group, ServerEnv(w, s).scalar, s.serverKeys, c, Pub(w, Now(s, c)), false)
    requires forall x :: ClientOf(s', x) == ClientOf(s, x)
    ensures s'.net == {d} && s'.queue == multiset{KeyReply(ref, c, Pub(w, Party(w.server, 0)))}
    ensures s'.used == {"", ref} && Unready(w, s', c)
  {
  }

  /** The exchange of `c` up to the point where the answer is on its way. */
  lemma AnswerOnItsWay(w: World, c: string, ref: string, nonce: Bytes) returns (steps: seq<Step>, answer: Datagram)
    requires Sound(w) && c != w.server && ref != "" && |nonce| == NONCE_SIZE
    ensures OnItsWay(w, After(w, steps), c, ref, answer)
  {
    var ask, reply := AskServer(c, w.server, ref, nonce), KeyReply(ref, c, Pub(w, Party(w.server, 0)));
    InitOk(w);
    var d, s2 := FirstRequested(w, Init(), c, ref, nonce);
    answer := AnswerEmitted(w, s2, c, ref, nonce, d);
    steps := [ask, ServerOpen(d, FRESH), ServerAnswer(Read(d), ""), ServerEmit(reply, true, nonce, "")];
    FourSteps(w, steps[0], steps[1], steps[2], steps[3]);
  }

  /** The server has the current point of a client that has nothing yet, and has not sent it anything that is not
    exempt. */
  predicate Unready(w: World, s: State, c: string) {
    && s.lives == map[] && ClientOf(s, c) == NEW_CLIENT
    && c in s.serverKeys && !s.serverKeys[c].keySent && s.serverKeys[c].public == Pub(w, Party(c, 0))
  }

  lemma RelayTwice(w: World, pre: seq<Step>, a: string, c: string, m1: Meta, m2: Meta, data1: Bytes, data2: Bytes,
                   nonce: Bytes)
    returns (steps: seq<Step>, o1: Outgoing, o2: Outgoing)
    requires Sound(w) && Alive(w, After(w, pre), a) && |nonce| == NONCE_SIZE && !ClientOf(After(w, pre), a).extended
    requires AppMeta(m1, After(w, pre).used) && AsksRelay(m1, c)
    requires AppMeta(m2, After(w, pre).used + {m1[KEY_REF]}) && AsksRelay(m2, c)
    requires Unready(w, After(w, pre), c) && After(w, pre).queue == multiset{}
    ensures o1.dest == c && !Exempt(o1.meta) && !Exempt(o2.meta)
    ensures o2 == Outgoing(c, ForwardMeta(m2[KEY_REF], a), Base64.Encode(data2))
    ensures Unready(w, After(w, pre + steps), c) && After(w, pre + steps).queue == multiset{o1, o2}
  {
    var in1, in2;
    in1, o1 := RelayIn(w, pre, a, c, m1, data1, nonce);
    in2, o2 := RelayIn(w, pre + in1, a, c, m2, data2, nonce);
    ForwardsAreSealed(m1[KEY_REF], a);
    ForwardsAreSealed(m2[KEY_REF], a);
    steps := in1 + in2;
    JoinSteps(pre, in1, in2);
  }

  lemma SealableFirst(w: World, s: State, o1: Outgoing, o2: Outgoing, nonce: Bytes)
    requires Inv(w, s) && Unready(w, s, o2.dest) && LegalKey(KeyOf(w, Party(w.server, 0), Party(o2.dest, 0)))
    ensures var s1 := AfterEmit(w, s, o1, nonce, Emit(w.aead, s.serverKeys, o1, true, nonce, ""));
            !Unsealable(s1.serverKeys, o2)
  {
    assert EntryOk(w, s.lives, o2.dest, s.serverKeys[o2.dest]);
    EmitKeepsPoints(w, s, o1, true, nonce, "");
  }

  /** Of two packets that are emitted to a client in this situation, the second cannot be read. */
  lemma SecondUnreadable(w: World, pre: seq<Step>, c: string, o1: Outgoing, o2: Outgoing, nonce: Bytes)
    returns (steps: seq<Step>, d: Datagram)
    requires Sound(w) && |nonce| == NONCE_SIZE && LegalKey(KeyOf(w, Party(w.server, 0), Party(c, 0)))
    requires o1.dest == o2.dest == c && c != w.server && !Exempt(o1.meta) && !Exempt(o2.meta)
    requires Unready(w, After(w, pre), c) && After(w, pre).queue == multiset{o1, o2}
    ensures var s := After(w, pre + steps); d in s.net && Carries(d, o2) && !Readable(w, s, d)
  {
    var e1, e2 := ServerEmit(o1, true, nonce, ""), ServerEmit(o2, true, nonce, "");
    ReachableOk(w, pre);
    d := SecondSealed(w, After(w, pre), c, o1, o2, nonce);
    steps := [e1, e2];
    TwoMore(w, pre, e1, e2);
  }

  lemma SecondSealed(w: World, s: State, c: string, o1: Outgoing, o2: Outgoing, nonce: Bytes) returns (d: Datagram)
    requires Inv(w, s) && |nonce| == NONCE_SIZE && LegalKey(KeyOf(w, Party(w.server, 0), Party(c, 0)))
    requires o1.dest == o2.dest == c && c != w.server && !Exempt(o1.meta) && !Exempt(o2.meta)
    requires Unready(w, s, c) && s.queue == multiset{o1, o2}
    ensures var s1 := Do(w, s, ServerEmit(o1, true, nonce, ""));
            var s2 := Do(w, s1, ServerEmit(o2, true, nonce, ""));
            d in s2.net && Carries(d, o2) && d.against.Some? && ClientOf(s2, c) == NEW_CLIENT
  {
    var d1 := EmitSent(w, s, o1, nonce, "");
    SealableFirst(w, s, o1, o2, nonce);
    d := EmitSent(w, Do(w, s, ServerEmit(o1, true, nonce, "")), o2, nonce, "");
  }

  /** Keeping quiet only until the server has sent its answer is not enough: with the answer on its way and nothing
    sent to the client before it, two ordinary packets to the client suffice for the second to be unreadable. */
  lemma QuietUntilAnswerNotEnough(w: World, c: string, a: string, ref: string, m1: Meta, m2: Meta, data1: Bytes,
                                  data2: Bytes,
                                  nonce: Bytes)
    returns (before: seq<Step>, later: seq<Step>, answer: Datagram, d: Datagram)
    requires Sound(w) && c != w.server && a != w.server && ref != "" && |nonce| == NONCE_SIZE
    requires LegalKey(KeyOf(w, Party(w.server, 0), Party(c, 0)))
    requires AppMeta(m1, {"", ref}) && AsksRelay(m1, c) && AppMeta(m2, {"", ref, m1[KEY_REF]}) && AsksRelay(m2, c)
    ensures answer in After(w, before).net && answer.to == c && answer.text == KeyData(w, Party(w.server, 0))
    ensures forall x :: x in After(w, before).net && x.to == c ==> x == answer
    ensures var s := After(w, before + later);
            && d in s.net && d.to == c && d.meta == ForwardMeta(m2[KEY_REF], a) && d.text == Base64.Encode(data2)
            && CanOpen(InUse(ClientOf(s, c)), w.server, d.wire)
            && ClientOpen(w, ClientOf(s, c), d.wire) != Json.Marshal(d.meta, d.text)
            && Receive(FRESH, ClientOpen(w, ClientOf(s, c), d.wire), Reject) == None
  {
    before, answer := AnswerOnItsWay(w, c, ref, nonce);
    var relays, o1, o2 := RelayTwice(w, before, a, c, m1, m2, data1, data2, nonce);
    var emits;
    emits, d := SecondUnreadable(w, before + relays, c, o1, o2, nonce);
    later := relays + emits;
    JoinSteps(before, relays, emits);
    ReachableOk(w, before + later);
    ClientRecovers(w, After(w, before + later), d, FRESH);
  }

  // ---------- a destination that is stuck ----------

  /** If the value that the server and a client share has no AES length, an exchange up to the answer, two ordinary
    packets to the client and the emission of the first of them are enough to be stuck: the second waits, and from
    here on it never arrives. */
  lemma GetsStuck(w: World, c: string, a: string, ref: string, m1: Meta, m2: Meta, data1: Bytes, data2: Bytes,
                  nonce: Bytes)
    returns (steps: seq<Step>, o: Outgoing)
    requires Sound(w) && c != w.server && a != w.server && ref != "" && |nonce| == NONCE_SIZE
    requires !LegalKey(KeyOf(w, Party(w.server, 0), Party(c, 0)))
    requires AppMeta(m1, {"", ref}) && AsksRelay(m1, c) && AppMeta(m2, {"", ref, m1[KEY_REF]}) && AsksRelay(m2, c)
    ensures var s := After(w, steps); Blocked(s, c) && o in s.queue && IsFor(o, c, m2[KEY_REF])
  {
    var before, _ := AnswerOnItsWay(w, c, ref, nonce);
    var relays, o1, o2 := RelayTwice(w, before, a, c, m1, m2, data1, data2, nonce);
    var pre, emit := before + relays, ServerEmit(o1, true, nonce, "");
    ReachableOk(w, pre);
    FirstBlocks(w, After(w, pre), c, o1, nonce);
    OneMore(w, pre, emit);
    steps, o := pre + [emit], o2;
    DistinctKeys();
    assert After(w, steps).queue == multiset{o2};
  }

  lemma FirstBlocks(w: World, s: State, c: string, o: Outgoing, nonce: Bytes)
    requires Inv(w, s) && Unready(w, s, c) && !LegalKey(KeyOf(w, Party(w.server, 0), Party(c, 0)))
    requires o in s.queue && o.dest == c && !Exempt(o.meta) && |nonce| == NONCE_SIZE
    ensures var s' := Do(w, s, ServerEmit(o, true, nonce, "")); Blocked(s', c) && s'.queue == s.queue - multiset{o}
  {
    assert EntryOk(w, s.lives, c, s.serverKeys[c]);
  }

  /** There is such a world, so what holds of a destination that is stuck is about something. */
  lemma StuckSomewhere(server: string, other: Other, c: string, a: string, ref: string, m1: Meta, m2: Meta,
                       data1: Bytes, data2: Bytes, nonce: Bytes)
    returns (w: World, steps: seq<Step>, o: Outgoing)
    requires c != server && a != server && ref != "" && |nonce| == NONCE_SIZE
    requires AppMeta(m1, {"", ref}) && AsksRelay(m1, c) && AppMeta(m2, {"", ref, m1[KEY_REF]}) && AsksRelay(m2, c)
    ensures Sound(w) && w.server == server
    ensures var s := After(w, steps); Blocked(s, c) && o in s.queue && IsFor(o, c, m2[KEY_REF])
  {
    w := ShortWorld(server, other);
    steps, o := GetsStuck(w, c, a, ref, m1, m2, data1, data2, nonce);
  }
}
