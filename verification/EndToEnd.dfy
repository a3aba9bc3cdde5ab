/** A payload sealed by one client for another, relayed by the server. */
module EndToEnd {
  import opened Bytes
  import opened Cipher
  import opened Curve
  import opened PacketState
  import opened Relay
  import opened Sealing
  import opened Protocol
  import opened Runs
  import opened Steady
  import Base64

  // ---------- the hops ----------

  /** A client's packet does not leave exactly if it asks for sealing under a key without an AES length. */
  lemma Leaves(w: World, s: State, c: string, dest: string, m: Meta, text: string, nonce: Bytes)
    requires |nonce| == NONCE_SIZE
    ensures var keys, d := InUse(ClientOf(s, c)), Outbound(w, s, c, dest, m, text, nonce);
            && (d.None? <==> Seals(keys, m, dest) && !LegalKey(KeyBytes(keys[dest])))
            && (d.Some? ==> d.value.from == Now(s, c) && d.value.meta == m && d.value.text == text)
  {
  }

  /** First hop: a client's packet reaches the network unless it asks for sealing under a key without an AES length. */
  lemma SendHop(w: World, s: State, c: string, dest: string, m: Meta, text: string, nonce: Bytes)
    requires Inv(w, s) && Enabled(w, s, SendApp(c, dest, m, text, nonce))
    ensures var keys, d := InUse(ClientOf(s, c)), Outbound(w, s, c, dest, m, text, nonce);
            && (d.None? <==> Seals(keys, m, dest) && !LegalKey(KeyBytes(keys[dest])))
            && (d.Some? ==>
                  && d.value in Do(w, s, SendApp(c, dest, m, text, nonce)).net
                  && d.value.from == Now(s, c) && d.value.meta == m && d.value.text == text)
  {
    assert ClientOk(w, s, c);
    Leaves(w, s, c, dest, m, text, nonce);
    SendStepOnly(w, s, SendApp(c, dest, m, text, nonce));
    assert InUse(ClientOf(s, c)) == InUse(ClientOf(UseRef(s, Get(m, KEY_REF)), c));
  }

  /** A request to relay to `dst`, whatever other metadata it has. */
  predicate AsksRelay(m: Meta, dst: string) {
    Get(m, "_tgt") == "svr.relay" && Get(m, "_relay_dst") == dst
  }

  /** What the server forwards of a relay request from `src`. */
  function ForwardMeta(ref: string, src: string): Meta {
    map["_ref" := ref]["_relay_src" := src]
  }

  predicate Carries(d: Datagram, o: Outgoing) {
    d.to == o.dest && d.meta == o.meta && d.text == o.text
  }

  /** What the server answers a relay request with: exactly the packet to forward if it could read the request when it
    opened it, else a complaint to the sender. */
  function RelayAnswer(w: World, s: State, d: Datagram, dst: string, stale: string): Outgoing {
    if Readable(w, s, d) then Outgoing(dst, ForwardMeta(Get(d.meta, KEY_REF), d.from.addr), d.text)
    else ErrOut("", d.from.addr, "malformed packet", stale)
  }

  /** Second hop: the request was opened in state `s` and is answered in state `t`, unless the server was started anew
    or has answered it already. */
  lemma RelayHop(w: World, s: State, t: State, d: Datagram, dst: string, data: Bytes, stale: string)
    requires AsksRelay(d.meta, dst) && d.text == Base64.Encode(data)
    ensures var taken := Taken(d, ReadBy(w, s, d));
            Do(w, t, ServerAnswer(taken, stale)) ==
            if taken !in t.held then t
            else t.(held := t.held - multiset{taken}, queue := t.queue + multiset{RelayAnswer(w, s, d, dst, stale)})
  {
    Base64.RoundTrip(data);
    DistinctTargets();
  }

  /** The report on a packet that cannot be sealed. */
  function Report(keys: Keys, o: Outgoing, stale: string): Outgoing
    requires o.dest in keys
  {
    var msg := "pipeline error: pipeline terminated: encryption error: " + KeySizeError(KeyBytes(keys[o.dest]));
    Outgoing(o.dest, map["_ref" := Get(o.meta, "_ref"), "_stat" := "-1", "_msg" := msg], stale)
  }

  lemma Prefixed(s: string)
    ensures "pipeline error: " + ("pipeline terminated: " + ("encryption error: " + s)) ==
            "pipeline error: pipeline terminated: encryption error: " + s
  {
  }

  lemma ErrorMeta(ref: string, msg: string)
    ensures map[KEY_REF := ref][KEY_STATUS := "-1"][KEY_MSG := msg] ==
            map["_ref" := ref, "_stat" := "-1", "_msg" := msg]
  {
  }

  lemma ReportIs(keys: Keys, o: Outgoing, stale: string)
    requires o.dest in keys
    ensures PipelineError(o, "encryption error: " + KeySizeError(KeyBytes(keys[o.dest])), stale) ==
            Report(keys, o, stale)
  {
    var size := KeySizeError(KeyBytes(keys[o.dest]));
    Prefixed(size);
    ErrorMeta(Get(o.meta, "_ref"), "pipeline error: pipeline terminated: encryption error: " + size);
  }

  /** What an emission comes to. */
  lemma EmissionIs(a: Aead, keys: Keys, o: Outgoing, resolves: bool, nonce: Bytes, stale: string)
    requires |nonce| == NONCE_SIZE
    ensures var x := Emit(a, keys, o, resolves, nonce, stale);
            if !resolves then x.Dropped?
            else if Unsealable(keys, o) then x == Requeued(keys, Report(keys, o, stale))
            else
              && x.Written?
              && (o.dest in keys && !Exempt(o.meta) ==> o.dest in x.keys && x.keys[o.dest].keySent)
  {
    if o.dest in keys {
      ReportIs(keys, o, stale);
    }
  }

  lemma AfterEmission(w: World, s: State, o: Outgoing, nonce: Bytes, x: Emission) returns (d: Datagram)
    ensures var s' := AfterEmit(w, s, o, nonce, x);
            && s' == s.(serverKeys := s'.serverKeys, queue := s'.queue, net := s'.net)
            && s'.net == (if x.Written? then s.net + {d} else s.net)
            && s'.serverKeys == (if x.Dropped? then s.serverKeys else x.keys)
            && s'.queue == s.queue - multiset{o} + (if x.Requeued? then multiset{x.out} else multiset{})
            && d.from == Now(s, w.server) && Carries(d, o) && d.against == Against(s.serverKeys, o.meta, o.dest)
  {
    d := Sent(w, s, o, nonce, if x.Written? then x.wire else []);
    assert s.queue - multiset{o} == s.queue - multiset{o} + multiset{};
  }

  /** Third hop: an emission takes the packet off the queue. If its address does not resolve that is all. If it cannot
    be sealed, nothing is sent, and a report on it is queued. Otherwise exactly the packet is sent. */
  lemma EmitHop(w: World, s: State, o: Outgoing, resolves: bool, nonce: Bytes, stale: string) returns (d: Datagram)
    requires o in s.queue && |nonce| == 12
    ensures var s', stuck := Do(w, s, ServerEmit(o, resolves, nonce, stale)), Unsealable(s.serverKeys, o);
            && s' == s.(serverKeys := s'.serverKeys, queue := s'.queue, net := s'.net)
            && s'.net == (if resolves && !stuck then s.net + {d} else s.net)
            && s'.queue == s.queue - multiset{o} +
                           (if resolves && stuck then multiset{Report(s.serverKeys, o, stale)} else multiset{})
            && (!resolves || stuck ==> s'.serverKeys == s.serverKeys)
            && (resolves && !stuck && o.dest in s.serverKeys && !Exempt(o.meta) ==>
                  o.dest in s'.serverKeys && s'.serverKeys[o.dest].keySent)
            && d.from == Now(s, w.server) && Carries(d, o) && d.against == Against(s.serverKeys, o.meta, o.dest)
  {
    EmissionIs(w.aead, s.serverKeys, o, resolves, nonce, stale);
    d := AfterEmission(w, s, o, nonce, Emit(w.aead, s.serverKeys, o, resolves, nonce, stale));
  }

  /** An emission that is not stuck. */
  lemma EmitSent(w: World, s: State, o: Outgoing, nonce: Bytes, stale: string) returns (d: Datagram)
    requires o in s.queue && |nonce| == 12 && !Unsealable(s.serverKeys, o)
    ensures var s' := Do(w, s, ServerEmit(o, true, nonce, stale));
            && s'.clients == s.clients && s'.lives == s.lives && s'.queue == s.queue - multiset{o}
            && (o.dest in s.serverKeys && !Exempt(o.meta) ==> o.dest in s'.serverKeys && s'.serverKeys[o.dest].keySent)
            && d in s'.net && d.from == Now(s, w.server) && Carries(d, o)
            && d.against == Against(s.serverKeys, o.meta, o.dest)
  {
    d := EmitHop(w, s, o, true, nonce, stale);
    assert s.queue - multiset{o} + multiset{} == s.queue - multiset{o};
  }

  lemma OpenedByPeer(w: World, keys: Keys, b: Party, a: Party, nonce: Bytes, payload: Bytes, body: Bytes)
    requires Sound(w) && a.addr in keys && StoreOk(w, b, keys[a.addr]) && keys[a.addr].public == Pub(w, a)
    requires |nonce| == NONCE_SIZE && EncryptAES(w.aead, KeyOf(w, a, b), nonce, payload) == Ok(body)
    ensures CanOpen(keys, a.addr, body) && DecryptFrom(w.aead, keys, a.addr, body) == Ok(payload)
  {
    SharedSymmetric(w, a, b);
    DecryptOfEncrypt(w.aead, KeyOf(w, a, b), nonce, payload);
  }

  /** The receiver's program runs, takes the datagram in as a packet from `a` with the reference, and opens its data to
    the payload. */
  ghost predicate Delivered(w: World, cl: Client, d: Datagram, a: string, ref: string, payload: Bytes,
                            pooled: PktState) {
    && !cl.ended && CanOpen(InUse(cl), w.server, d.wire)
    && var p := Receive(pooled, ClientOpen(w, cl, d.wire), Reject);
       && p.Some? && Ref(p.value) == ref && Get(p.value.meta, KEY_RELAY_FROM) == a
       && CanOpen(cl.keys, a, p.value.data)
       && DecryptFrom(w.aead, cl.keys, a, p.value.data) == Ok(payload)
  }

  lemma ForwardContent(ref: string, src: string, body: Bytes)
    ensures var m := ForwardMeta(ref, src);
            && Content(m, Base64.Encode(body)) == Some(Received(m, body))
            && Get(m, KEY_REF) == ref && Get(m, KEY_RELAY_FROM) == src
  {
    DistinctKeys();
    Base64.RoundTrip(body);
  }

  /** Last hop: a datagram with the forwarded packet brings the payload exactly if the receiver runs and can read it,
    given that the payload was sealed against the receiver's current point and the receiver has the point of the life
    that sealed it. */
  lemma DeliverHop(w: World, s: State, d: Datagram, a: Party, b: string, ref: string, nonce: Bytes, payload: Bytes,
                   body: Bytes, pooled: PktState)
    requires Sound(w) && Inv(w, s) && b != w.server && |nonce| == NONCE_SIZE
    requires a.addr in ClientOf(s, b).keys && ClientOf(s, b).keys[a.addr].public == Pub(w, a)
    requires EncryptAES(w.aead, KeyOf(w, a, Now(s, b)), nonce, payload) == Ok(body)
    requires d in s.net && Carries(d, Outgoing(b, ForwardMeta(ref, a.addr), Base64.Encode(body)))
    ensures Delivered(w, ClientOf(s, b), d, a.addr, ref, payload, pooled) <==> Alive(w, s, b) && Readable(w, s, d)
  {
    ClientRecovers(w, s, d, pooled);
    ForwardContent(ref, a.addr, body);
    assert ClientOk(w, s, b);
    OpenedByPeer(w, ClientOf(s, b).keys, Now(s, b), a, nonce, payload, body);
  }

  // ---------- the whole way ----------

  /** A relayed payload on its way from `a` to `b`: the states after each hop, with anything at all happening in
    between. */
  datatype Journey = Journey(
    before: State, sent: State, request: Datagram, arrived: State, taken: State, due: State, forwarded: State,
    waiting: State, emitted: State, last: State)

  /** How the hops are taken: the destination and metadata of the request, the steps `m1` to `m4` between the hops, and
    the choices that each hop makes. */
  datatype Route = Route(
    a: string, b: string, dest: string, m: Meta, m1: seq<Step>, m2: seq<Step>, m3: seq<Step>, m4: seq<Step>,
    n1: Bytes, n2: Bytes, pooled: PktState, stale: string)

  function Sending(r: Route, body: Bytes): Step {
    SendApp(r.a, r.dest, r.m, Base64.Encode(body), r.n1)
  }

  /** The request as the server opened it. */
  function Request(w: World, j: Journey): Taken {
    Taken(j.request, ReadBy(w, j.arrived, j.request))
  }

  /** The packet that the server is to forward. */
  function Forward(r: Route, body: Bytes): Outgoing {
    Outgoing(r.b, ForwardMeta(Get(r.m, KEY_REF), r.a), Base64.Encode(body))
  }

  /** `j` is what happens when `a` sends `body` for relay to `b` and the server opens, answers and emits it, in that
    order. */
  ghost predicate Travels(w: World, j: Journey, r: Route, body: Bytes) {
    && AsksRelay(r.m, r.b) && r.b != w.server && |r.n2| == NONCE_SIZE
    && Enabled(w, j.before, Sending(r, body))
    && j.sent == Do(w, j.before, Sending(r, body))
    && Outbound(w, j.before, r.a, r.dest, r.m, Base64.Encode(body), r.n1) == Some(j.request)
    && j.arrived == Exec(w, j.sent, r.m1)
    && j.taken == Do(w, j.arrived, ServerOpen(j.request, r.pooled))
    && j.due == Exec(w, j.taken, r.m2)
    && j.forwarded == Do(w, j.due, ServerAnswer(Request(w, j), r.stale))
    && j.waiting == Exec(w, j.forwarded, r.m3)
    && j.emitted == Do(w, j.waiting, ServerEmit(Forward(r, body), true, r.n2, r.stale))
    && j.last == Exec(w, j.emitted, r.m4)
  }

  lemma JourneyOk(w: World, j: Journey, r: Route, body: Bytes)
    requires Sound(w) && Inv(w, j.before) && Travels(w, j, r, body)
    ensures Inv(w, j.sent) && Inv(w, j.arrived) && Inv(w, j.taken) && Inv(w, j.due) && Inv(w, j.forwarded)
    ensures Inv(w, j.waiting) && Inv(w, j.emitted) && Inv(w, j.last)
  {
    StepKeeps(w, j.before, Sending(r, body));
    RunKeeps(w, j.sent, r.m1);
    StepKeeps(w, j.arrived, ServerOpen(j.request, r.pooled));
    RunKeeps(w, j.taken, r.m2);
    StepKeeps(w, j.due, ServerAnswer(Request(w, j), r.stale));
    RunKeeps(w, j.forwarded, r.m3);
    StepKeeps(w, j.waiting, ServerEmit(Forward(r, body), true, r.n2, r.stale));
    RunKeeps(w, j.emitted, r.m4);
  }

  lemma {:induction false} NetGrows(w: World, s: State, steps: seq<Step>)
    requires Sound(w) && Inv(w, s)
    ensures s.net <= Exec(w, s, steps).net
  {
    if steps != [] {
      NetGrows(w, s, steps[..|steps| - 1]);
      RunKeeps(w, s, steps[..|steps| - 1]);
      StepGrows(w, Exec(w, s, steps[..|steps| - 1]), steps[|steps| - 1]);
    }
  }

  lemma RequestArrives(w: World, j: Journey, r: Route, body: Bytes)
    requires Sound(w) && Inv(w, j.before) && Travels(w, j, r, body)
    ensures j.request in j.arrived.net && j.request.to == w.server && j.request.from == Now(j.before, r.a)
    ensures j.request.meta == r.m && j.request.text == Base64.Encode(body)
  {
    SendHop(w, j.before, r.a, r.dest, r.m, Base64.Encode(body), r.n1);
    StepKeeps(w, j.before, Sending(r, body));
    NetGrows(w, j.sent, r.m1);
  }

  /** The payload as `a` sealed it, against its point for `b`. */
  lemma SealedForPeer(w: World, s: State, a: string, b: string, nonce: Bytes, payload: Bytes, body: Bytes, pub: Point)
    requires ClientOk(w, s, a) && b in ClientOf(s, a).keys && ClientOf(s, a).keys[b].public == pub
    requires EncryptFor(w.aead, ClientOf(s, a).keys, b, nonce, payload) == Ok(body)
    ensures EncryptAES(w.aead, BigEndian(SharedWith(w, Now(s, a), pub)), nonce, payload) == Ok(body)
  {
  }

  /** The ends agree on the payload: `a` sealed it against the point that `b` has at the end, and `b` then has the
    point of the life of `a` that sealed it. */
  ghost predicate Sealed(w: World, j: Journey, r: Route, nonce: Bytes, payload: Bytes, body: Bytes) {
    var keysA, keysB := ClientOf(j.before, r.a).keys, ClientOf(j.last, r.b).keys;
    && |nonce| == NONCE_SIZE && EncryptFor(w.aead, keysA, r.b, nonce, payload) == Ok(body)
    && r.b in keysA && keysA[r.b].public == Pub(w, Now(j.last, r.b))
    && r.a in keysB && keysB[r.a].public == Pub(w, Now(j.before, r.a))
  }

  /** The server opens the request as it can read it, and holds it. */
  lemma RequestHeld(w: World, j: Journey, r: Route, body: Bytes)
    requires Sound(w) && Inv(w, j.before) && Travels(w, j, r, body)
    ensures j.taken.held == j.arrived.held + multiset{Request(w, j)}
  {
    JourneyOk(w, j, r, body);
    RequestArrives(w, j, r, body);
    OpenedIs(w, j.arrived, j.request, r.pooled);
  }

  /** What the emission does to the network: it sends exactly the packet to forward, if that is queued and can be
    sealed, else nothing. */
  ghost predicate EmitsForward(j: Journey, fwd: Outgoing) {
    if fwd in j.waiting.queue && !Unsealable(j.waiting.serverKeys, fwd) then
      exists d :: j.emitted.net == j.waiting.net + {d} && Carries(d, fwd)
    else j.emitted.net == j.waiting.net
  }

  lemma ForwardEmitted(w: World, j: Journey, r: Route, body: Bytes)
    requires Travels(w, j, r, body)
    ensures EmitsForward(j, Forward(r, body))
  {
    if Forward(r, body) in j.waiting.queue {
      var d := EmitHop(w, j.waiting, Forward(r, body), true, r.n2, r.stale);
      assert Carries(d, Forward(r, body));
    }
  }

  /** End-to-end relay over interleaved runs, with anything at all in between, restarts and refused requests included.
    The server holds the request from when it opens it; if it still does when it comes to answer, it enqueues exactly
    the packet to forward if it could read the request, else a complaint to the sender, and otherwise nothing. Emitted
    while queued, that packet and no other reaches the network, unless it cannot be sealed for `b`. And if the ends
    agree on the payload, `b` gets from any datagram that carries it exactly the payload, from `a`, with the
    reference, if and only if `b` runs and can read the datagram. */
  lemma EndToEnd(w: World, pre: seq<Step>, j: Journey, r: Route, nonce: Bytes, payload: Bytes, body: Bytes,
                 pooled: PktState)
    requires Sound(w) && j.before == After(w, pre) && Travels(w, j, r, body) && Sealed(w, j, r, nonce, payload, body)
    ensures var fwd, complaint := Forward(r, body), ErrOut("", r.a, "malformed packet", r.stale);
            && Request(w, j) in j.taken.held
            && j.forwarded.queue == (if Request(w, j) !in j.due.held then j.due.queue
                                     else if Readable(w, j.arrived, j.request) then j.due.queue + multiset{fwd}
                                     else j.due.queue + multiset{complaint})
            && EmitsForward(j, fwd) && j.emitted.net <= j.last.net
            && forall d :: d in j.last.net && Carries(d, fwd) ==>
                 (Delivered(w, ClientOf(j.last, r.b), d, r.a, Get(r.m, KEY_REF), payload, pooled) <==>
                    Alive(w, j.last, r.b) && Readable(w, j.last, d))
  {
    var fwd := Forward(r, body);
    ReachableOk(w, pre);
    JourneyOk(w, j, r, body);
    RequestArrives(w, j, r, body);
    RequestHeld(w, j, r, body);
    RelayHop(w, j.arrived, j.due, j.request, r.b, body, r.stale);
    ForwardEmitted(w, j, r, body);
    NetGrows(w, j.emitted, r.m4);
    assert ClientOk(w, j.before, r.a);
    SealedForPeer(w, j.before, r.a, r.b, nonce, payload, body, Pub(w, Now(j.last, r.b)));
    forall d | d in j.last.net && Carries(d, fwd)
      ensures Delivered(w, ClientOf(j.last, r.b), d, r.a, Get(r.m, KEY_REF), payload, pooled) <==>
              Alive(w, j.last, r.b) && Readable(w, j.last, d)
    {
      DeliverHop(w, j.last, d, Now(j.before, r.a), r.b, Get(r.m, KEY_REF), nonce, payload, body, pooled);
    }
  }

  // ---------- when nobody starts anew on the way ----------

  /** Between the hops, neither `c` nor the server starts anew or takes in an exchange message of an earlier life. */
  predicate Undisturbed(w: World, j: Journey, r: Route, c: string) {
    && NoRekey(w, j.sent, r.m1, c) && NoRekey(w, j.taken, r.m2, c)
    && NoRekey(w, j.forwarded, r.m3, c) && NoRekey(w, j.emitted, r.m4, c)
  }

  lemma SentSettled(w: World, j: Journey, r: Route, body: Bytes, c: string)
    requires Sound(w) && Inv(w, j.before) && Travels(w, j, r, body) && NoRekey(w, j.sent, r.m1, c)
    requires Settled(w, j.before.net, j.before, c)
    ensures Settled(w, j.before.net, j.arrived, c) && SamePair(w, j.before, j.arrived, c)
  {
    StepKeeps(w, j.before, Sending(r, body));
    SettledStep(w, j.before.net, j.before, Sending(r, body), c);
    SettledRun(w, j.before.net, j.sent, r.m1, c);
  }

  lemma RelayKeepsLives(w: World, j: Journey, r: Route, body: Bytes, c: string)
    requires Travels(w, j, r, body)
    ensures SameLives(w, j.due, ServerAnswer(Request(w, j), r.stale), c)
  {
    DistinctTargets();
  }

  lemma AnsweredSettled(w: World, j: Journey, r: Route, body: Bytes, c: string)
    requires Sound(w) && Inv(w, j.before) && Travels(w, j, r, body) && Undisturbed(w, j, r, c)
    requires Settled(w, j.before.net, j.before, c)
    ensures Settled(w, j.before.net, j.forwarded, c) && SamePair(w, j.before, j.forwarded, c)
  {
    var past := j.before.net;
    JourneyOk(w, j, r, body);
    SentSettled(w, j, r, body, c);
    SettledStep(w, past, j.arrived, ServerOpen(j.request, r.pooled), c);
    SettledRun(w, past, j.taken, r.m2, c);
    RelayKeepsLives(w, j, r, body, c);
    SettledStep(w, past, j.due, ServerAnswer(Request(w, j), r.stale), c);
  }

  lemma JourneySettled(w: World, j: Journey, r: Route, body: Bytes, c: string)
    requires Sound(w) && Inv(w, j.before) && Travels(w, j, r, body) && Undisturbed(w, j, r, c)
    requires Settled(w, j.before.net, j.before, c)
    ensures Settled(w, j.before.net, j.waiting, c) && SamePair(w, j.before, j.waiting, c)
    ensures Settled(w, j.before.net, j.last, c) && SamePair(w, j.before, j.last, c)
  {
    var past := j.before.net;
    JourneyOk(w, j, r, body);
    AnsweredSettled(w, j, r, body, c);
    SettledRun(w, past, j.forwarded, r.m3, c);
    SettledStep(w, past, j.waiting, ServerEmit(Forward(r, body), true, r.n2, r.stale), c);
    SettledRun(w, past, j.emitted, r.m4, c);
  }

  /** What a client that is in step sends to the server is between the two. */
  lemma OutboundBetween(w: World, s: State, c: string, m: Meta, text: string, nonce: Bytes, d: Datagram)
    requires InStep(w, s, c) && Outbound(w, s, c, w.server, m, text, nonce) == Some(d)
    ensures Between(w, s, d, c)
  {
  }

  /** The server can read the request when it arrives. */
  lemma RequestReadable(w: World, j: Journey, r: Route, body: Bytes)
    requires Sound(w) && Inv(w, j.before) && Travels(w, j, r, body) && NoRekey(w, j.sent, r.m1, r.a)
    requires Settled(w, j.before.net, j.before, r.a) && r.dest == w.server
    ensures Readable(w, j.arrived, j.request)
  {
    OutboundBetween(w, j.before, r.a, r.m, Base64.Encode(body), r.n1, j.request);
    BetweenStays(w, j.before, Sending(r, body), j.request, r.a);
    JourneyOk(w, j, r, body);
    BetweenRun(w, j.sent, r.m1, j.request, r.a);
    SentSettled(w, j, r, body, r.a);
    BetweenIsReadable(w, j.arrived, j.request, r.a);
  }

  /** What the server sends a client that is in step is between the two. */
  lemma EmittedBetween(w: World, s: State, d: Datagram, o: Outgoing, c: string)
    requires InStep(w, s, c) && o.dest == c && d.to == c && d.from == Now(s, w.server)
    requires d.against == Against(s.serverKeys, o.meta, o.dest)
    ensures Between(w, s, d, c)
  {
  }

  /** If the key that the server shares with `b` has an AES length, the packet to forward can be sealed. */
  lemma ForwardSealable(w: World, s: State, o: Outgoing)
    requires Inv(w, s) && InStep(w, s, o.dest) && LegalKey(KeyOf(w, Now(s, w.server), Now(s, o.dest)))
    ensures !Unsealable(s.serverKeys, o)
  {
    if o.dest in s.serverKeys {
      assert EntryOk(w, s.lives, o.dest, s.serverKeys[o.dest]);
    }
  }

  /** The emitted datagram is still readable at the end. */
  lemma EmittedReadable(w: World, j: Journey, r: Route, body: Bytes) returns (d: Datagram)
    requires Sound(w) && Inv(w, j.before) && Travels(w, j, r, body) && Undisturbed(w, j, r, r.b)
    requires Settled(w, j.before.net, j.before, r.b) && Forward(r, body) in j.waiting.queue
    requires LegalKey(KeyOf(w, Now(j.before, w.server), Now(j.before, r.b)))
    ensures d in j.last.net && Carries(d, Forward(r, body)) && Readable(w, j.last, d)
  {
    JourneyOk(w, j, r, body);
    JourneySettled(w, j, r, body, r.b);
    ForwardSealable(w, j.waiting, Forward(r, body));
    d := EmitSent(w, j.waiting, Forward(r, body), r.n2, r.stale);
    EmittedBetween(w, j.waiting, d, Forward(r, body), r.b);
    BetweenStays(w, j.waiting, ServerEmit(Forward(r, body), true, r.n2, r.stale), d, r.b);
    BetweenRun(w, j.emitted, r.m4, d, r.b);
    NetGrows(w, j.emitted, r.m4);
    BetweenIsReadable(w, j.last, d, r.b);
  }

  /** End-to-end relay once `a` and `b` have completed their exchanges with the server and hold each other's current
    points: as long as `a` does not start anew before the request arrives, nor `b` or the server on the whole way,
    every payload that `a` seals for `b` and addresses to the server is enqueued for `b` when the server answers;
    emitted while still queued it is sent, and delivered to `b`; and every datagram sent since that carries it brings
    `b` exactly the payload, whatever the server's sent mark for `b` was, if the program of `b` still runs. */
  lemma SecureRelay(w: World, pre: seq<Step>, j: Journey, r: Route, nonce: Bytes, payload: Bytes, body: Bytes,
                    pooled: PktState)
    requires Sound(w) && j.before == After(w, pre) && Travels(w, j, r, body) && Sealed(w, j, r, nonce, payload, body)
    requires r.a != w.server && Completed(w, j.before, r.a) && InStep(w, j.before, r.a) && NoRekey(w, j.sent, r.m1, r.a)
    requires r.b != w.server && Completed(w, j.before, r.b) && InStep(w, j.before, r.b) && Undisturbed(w, j, r, r.b)
    requires r.dest == w.server && LegalKey(KeyOf(w, Now(j.before, w.server), Now(j.before, r.b)))
    ensures var fwd, cl, ref := Forward(r, body), ClientOf(j.last, r.b), Get(r.m, KEY_REF);
            && (Request(w, j) in j.due.held ==> j.forwarded.queue == j.due.queue + multiset{fwd})
            && (fwd in j.waiting.queue ==>
                  exists d :: d in j.last.net && Carries(d, fwd) &&
                    (Delivered(w, cl, d, r.a, ref, payload, pooled) <==> Alive(w, j.last, r.b)))
            && forall d :: d in j.last.net && d !in j.before.net && Carries(d, fwd) ==>
                 (Delivered(w, cl, d, r.a, ref, payload, pooled) <==> Alive(w, j.last, r.b))
  {
    var fwd := Forward(r, body);
    ReachableOk(w, pre);
    JourneyOk(w, j, r, body);
    EndToEnd(w, pre, j, r, nonce, payload, body, pooled);
    RequestReadable(w, j, r, body);
    if fwd in j.waiting.queue {
      var d := EmittedReadable(w, j, r, body);
    }
    JourneySettled(w, j, r, body, r.b);
    forall d | d in j.last.net && d !in j.before.net && Carries(d, fwd)
      ensures Readable(w, j.last, d)
    {
      BetweenIsReadable(w, j.last, d, r.b);
    }
  }
}
