/** Every step keeps the invariant of the protocol, so every run does. */
module Runs {
  import opened Bytes
  import opened Cipher
  import opened Curve
  import opened PacketState
  import opened Relay
  import opened Sealing
  import opened Protocol
  import Base64
  import Json

  // ---------- a client's steps ----------

  lemma UseRefKeeps(w: World, s: State, ref: string)
    requires Inv(w, s)
    ensures Inv(w, UseRef(s, ref))
  {
    ClientStays(w, s, UseRef(s, ref), "");
    Keeps(w, s, UseRef(s, ref), None, None, "");
  }

  lemma NewAskGrows(w: World, s: State, ref: string, c: string, what: Purpose)
    requires Inv(w, s) && ref !in s.used
    ensures Grows(w, s, NewAsk(s, ref, c, what))
  {
    assert forall r :: r in s.asked ==> AskOk(w, s, r);
  }

  lemma NewAskKeeps(w: World, s: State, ref: string, c: string, what: Purpose)
    requires Inv(w, s) && ref !in s.used && c != w.server
    requires what.ClientKey? ==> what.addr != w.server && PlainText(what.addr)
    ensures Inv(w, NewAsk(s, ref, c, what))
  {
    var s' := NewAsk(s, ref, c, what);
    NewAskGrows(w, s, ref, c, what);
    ClientStays(w, s, s', "");
    Keeps(w, s, s', None, None, "");
  }

  /** A client's transform changes no key and seals under the value shared with the stored point. */
  lemma ClientSeals(w: World, s: State, c: string, dest: string, m: Meta, text: string, nonce: Bytes)
    requires ClientOk(w, s, c) && |nonce| == NONCE_SIZE && c != w.server
    ensures var cl := ClientOf(s, c);
            var d := Outbound(w, s, c, dest, m, text, nonce);
            && EncryptTransport(w.aead, InUse(cl), m, dest, nonce, Json.Marshal(m, text)).keys == InUse(cl)
            && (d.Some? ==> WireOk(w, d.value) && SealedOk(w, s.lives, d.value))
  {
  }

  lemma OneMoreDatagram(w: World, s: State, d: Datagram)
    requires Inv(w, s) && DatagramOk(w, s, d)
    ensures Inv(w, s.(net := s.net + {d}))
  {
    var s' := s.(net := s.net + {d});
    DatagramStays(w, s, s', d);
    KeepsServer(w, s, s', Some(d), None);
  }

  lemma SameClient(w: World, s: State, c: string, cl: Client)
    requires Inv(w, s) && cl.keys == ClientOf(s, c).keys && c != w.server
    ensures Inv(w, s.(clients := s.clients[c := cl]))
  {
    var s' := s.(clients := s.clients[c := cl]);
    ClientStays(w, s, s', c);
    Keeps(w, s, s', None, None, c);
  }

  lemma SendKeeps(w: World, s: State, c: string, dest: string, m: Meta, text: string, nonce: Bytes)
    requires Inv(w, s) && c != w.server && |nonce| == NONCE_SIZE
    requires KEY_REF in m && m[KEY_REF] in s.used
    requires RequestIs(w, s, Now(s, c), text, m[KEY_REF], Get(m, KEY_TARGET))
    ensures Inv(w, SendFrame(w, s, c, dest, m, text, nonce))
  {
    assert ClientOk(w, s, c);
    ClientSeals(w, s, c, dest, m, text, nonce);
    var cl, d := ClientOf(s, c), Outbound(w, s, c, dest, m, text, nonce);
    if d.Some? {
      OneMoreDatagram(w, s, d.value);
      if cl.extended {
        SameClient(w, s.(net := s.net + {d.value}), c, cl);
        assert cl == cl.(keys := InUse(cl));
      }
    }
  }

  // ---------- receiving ----------

  lemma ReceiveFrame(m: Meta, text: string, pooled: PktState)
    requires KEY_REF in m
    ensures Receive(pooled, Json.Marshal(m, text), Reject) == Content(m, text)
  {
    Reception(m, text, pooled, Reject);
  }

  /** The receiver's keys fit: the datagram left unsealed, or sealed under the key the receiver has for the sender. */
  predicate Fits(w: World, d: Datagram, keys: Keys, from: string) {
    d.against.None? || (from in keys && KeyBytes(keys[from]) == SealKey(w, d))
  }

  /** A receiver's table in which the entry for the sender is one that a client shares with the server. */
  ghost predicate Shares(w: World, keys: Keys, from: string) {
    from in keys ==> exists p, life :: KeyBytes(keys[from]) == KeyOf(w, p, Party(w.server, life))
  }

  /** What a pipeline makes of a datagram: the frame if and only if the keys fit; otherwise the bytes pass unchanged and
    cannot be decoded. In no case is the datagram too short to split. */
  lemma Recovers(w: World, d: Datagram, keys: Keys, from: string, pooled: PktState)
    requires Sound(w) && WireOk(w, d) && KEY_REF in d.meta && Shares(w, keys, from)
    ensures CanOpen(keys, from, d.wire)
    ensures DecryptTransport(w.aead, keys, from, d.wire) == if Fits(w, d, keys, from) then Frame(d) else d.wire
    ensures DecryptTransport(w.aead, keys, from, d.wire) == Frame(d) <==> Fits(w, d, keys, from)
    ensures Receive(pooled, DecryptTransport(w.aead, keys, from, d.wire), Reject) ==
            if Fits(w, d, keys, from) then Content(d.meta, d.text) else None
  {
    var key := if d.against.Some? then SealKey(w, d) else BigEndian(0);
    Json.RoundTrip(d.meta, d.text);
    ReceiveFrame(d.meta, d.text, pooled);
    if d.against.Some? {
      DecryptOfEncrypt(w.aead, key, d.nonce, Frame(d));
      if from in keys && KeyBytes(keys[from]) != key {
        var p, life :| KeyBytes(keys[from]) == KeyOf(w, p, Party(w.server, life));
        assert Apart(w, key, p, life);
      }
      Transparent(w.aead, d.meta, d.text, d.wire, key, d.nonce, keys, from);
    } else {
      Unsealed(w, d, keys, from);
    }
  }

  lemma Unsealed(w: World, d: Datagram, keys: Keys, from: string)
    requires Sound(w) && d.wire == Frame(d)
    ensures CanOpen(keys, from, d.wire) && DecryptTransport(w.aead, keys, from, d.wire) == Frame(d)
  {
    Json.RoundTrip(d.meta, d.text);
    Json.LongerThanNonce(d.meta, d.text);
    if from in keys {
      FrameDoesNotOpen(w.aead, KeyBytes(keys[from]), d.wire);
    }
  }

  lemma ServerShares(w: World, s: State, x: string)
    requires Sound(w) && ServerOk(w, s)
    ensures Shares(w, s.serverKeys, x)
  {
    if x in s.serverKeys {
      var life :| PointOf(w, s.lives, x, life, s.serverKeys[x].public);
      SharedSymmetric(w, Now(s, w.server), Party(x, life));
      assert KeyBytes(s.serverKeys[x]) == KeyOf(w, Party(x, life), Party(w.server, Now(s, w.server).life));
    }
  }

  lemma ClientShares(w: World, s: State, c: string)
    requires ClientOk(w, s, c)
    ensures Shares(w, InUse(ClientOf(s, c)), w.server)
  {
    var keys := InUse(ClientOf(s, c));
    if w.server in keys {
      var life :| PointOf(w, s.lives, w.server, life, keys[w.server].public);
      assert KeyBytes(keys[w.server]) == KeyOf(w, Now(s, c), Party(w.server, life));
    }
  }

  /** The receiver of a datagram can read it in this state. */
  predicate Readable(w: World, s: State, d: Datagram) {
    if d.to == w.server then Fits(w, d, s.serverKeys, d.from.addr) else Fits(w, d, InUse(ClientOf(s, d.to)), w.server)
  }

  lemma ServerRecovers(w: World, s: State, d: Datagram, pooled: PktState)
    requires Sound(w) && Inv(w, s) && d in s.net && d.to == w.server
    ensures CanOpen(s.serverKeys, d.from.addr, d.wire)
    ensures DecryptTransport(w.aead, s.serverKeys, d.from.addr, d.wire) ==
            if Readable(w, s, d) then Frame(d) else d.wire
    ensures DecryptTransport(w.aead, s.serverKeys, d.from.addr, d.wire) == Frame(d) <==> Readable(w, s, d)
    ensures Receive(pooled, DecryptTransport(w.aead, s.serverKeys, d.from.addr, d.wire), Reject) ==
            if Readable(w, s, d) then Content(d.meta, d.text) else None
  {
    assert DatagramOk(w, s, d);
    ServerShares(w, s, d.from.addr);
    Recovers(w, d, s.serverKeys, d.from.addr, pooled);
  }

  lemma ClientRecovers(w: World, s: State, d: Datagram, pooled: PktState)
    requires Sound(w) && Inv(w, s) && d in s.net && d.to != w.server
    ensures var cl := ClientOf(s, d.to);
            && CanOpen(InUse(cl), w.server, d.wire)
            && ClientOpen(w, cl, d.wire) == (if Readable(w, s, d) then Frame(d) else d.wire)
            && (ClientOpen(w, cl, d.wire) == Frame(d) <==> Readable(w, s, d))
            && Receive(pooled, ClientOpen(w, cl, d.wire), Reject) ==
               if Readable(w, s, d) then Content(d.meta, d.text) else None
  {
    assert DatagramOk(w, s, d) && ClientOk(w, s, d.to);
    ClientShares(w, s, d.to);
    Recovers(w, d, InUse(ClientOf(s, d.to)), w.server, pooled);
  }

  // ---------- what a client learns ----------

  lemma AnsweredKeeps(w: World, s: State, ref: string)
    requires Inv(w, s) && ref in s.asked
    ensures Inv(w, Answered(s, ref))
  {
    ClientStays(w, s, Answered(s, ref), "");
    Keeps(w, s, Answered(s, ref), None, None, "");
  }

  lemma StoreKeeps(w: World, s: State, c: string, addr: string, pub: Point)
    requires Inv(w, s) && c != w.server && (addr == w.server ==> Genuine(w, s.lives, w.server, pub))
    ensures Inv(w, Store(w, s, c, addr, pub))
  {
    assert ClientOk(w, s, c);
    StoreKeepsClient(w, s, c, addr, pub);
    Keeps(w, s, Store(w, s, c, addr, pub), None, None, c);
  }

  lemma StoreKeepsClient(w: World, s: State, c: string, addr: string, pub: Point)
    requires ClientOk(w, s, c) && (addr == w.server ==> Genuine(w, s.lives, w.server, pub))
    ensures ClientOk(w, Store(w, s, c, addr, pub), c)
  {
  }

  lemma KeyContent(m: Meta, pub: Point)
    ensures Content(m, Base64.Encode(PrintKey(pub))) == Some(Received(m, PrintKey(pub)))
    ensures forall other :: ReadKey(PrintKey(pub), other) == Complete(pub)
  {
    Base64.RoundTrip(PrintKey(pub));
    forall other
      ensures ReadKey(PrintKey(pub), other) == Complete(pub)
    {
      PrintedKeyReads(pub, other);
    }
  }

  /** The point in an answer of the server about itself is that of the life that sent it. */
  lemma AnswerBrings(w: World, s: State, d: Datagram, p: Received)
    requires Inv(w, s) && d in s.net && d.to != w.server && Content(d.meta, d.text) == Some(p)
    requires Ref(p) in s.asked && s.asked[Ref(p)].what.ServerKey?
    ensures ReadingOf(w, p.data) == Complete(Pub(w, d.from))
    ensures PointOf(w, s.lives, w.server, d.from.life, Pub(w, d.from))
  {
    assert DatagramOk(w, s, d);
    KeyContent(d.meta, Pub(w, d.from));
  }

  lemma EndKeeps(w: World, s: State, c: string)
    requires Inv(w, s) && c != w.server
    ensures Inv(w, End(s, c))
  {
    SameClient(w, s, c, ClientOf(s, c).(ended := true));
  }

  lemma LearnKeeps(w: World, s: State, d: Datagram, p: Option<Received>)
    requires Inv(w, s) && d in s.net && d.to != w.server
    requires p == None || p == Content(d.meta, d.text)
    ensures Inv(w, Learn(w, s, d.to, p))
  {
    if p.Some? && Awaits(s, d.to, Ref(p.value)) {
      var ref := Ref(p.value);
      assert AskOk(w, s, ref);
      AnsweredKeeps(w, s, ref);
      match ReadingOf(w, p.value.data)
      case NoKey =>
      case Incomplete => EndKeeps(w, Answered(s, ref), d.to);
      case Complete(pub) =>
        if s.asked[ref].what.ServerKey? {
          AnswerBrings(w, s, d, p.value);
        }
        StoreKeeps(w, Answered(s, ref), d.to, Owner(w, s.asked[ref].what), pub);
    }
  }

  // ---------- the server's steps ----------

  lemma KeyReplyExempt(ref: string, dest: string, pub: Point)
    ensures var o := KeyReply(ref, dest, pub);
            Exempt(o.meta) && o.meta[KEY_REF] == ref && KEY_REF in o.meta && Get(o.meta, KEY_TARGET) == ""
  {
    DistinctKeys();
    assert KeyReply(ref, dest, pub).meta[KEY_NO_CRYPTO] == ["true", "t", "yes", "y", "1"][0];
  }

  lemma ErrOutPlain(ref: string, dest: string, msg: string, stale: string)
    ensures var o := ErrOut(ref, dest, msg, stale);
            KEY_REF in o.meta && o.meta[KEY_REF] == ref && Get(o.meta, KEY_TARGET) == "" && o.dest == dest
  {
    DistinctKeys();
  }

  /** A reply that is right for the state after the key table has grown. */
  lemma ReplyKeeps(w: World, s: State, keys: Keys, o: Outgoing)
    requires Inv(w, s) && s.serverKeys.Keys <= keys.Keys
    requires ServerOk(w, s.(serverKeys := keys))
    requires OutOk(w, s.(serverKeys := keys), Now(s, w.server), o.dest, o.meta, o.text)
    ensures Inv(w, AfterReceive(s, Reply(keys, o)))
  {
    var t, s' := s.(serverKeys := keys), AfterReceive(s, Reply(keys, o));
    OutStays(w, t, s', Now(s, w.server), o.dest, o.meta, o.text);
    KeepsServer(w, s, s', None, Some(o));
  }

  /** Storing the point of a life of `x` keeps the server's table right. */
  lemma RegisterOk(w: World, s: State, x: Party)
    requires ServerOk(w, s) && x.addr != w.server && x.life <= Now(s, x.addr).life
    ensures var keys := Install(w.group, ServerEnv(w, s).scalar, s.serverKeys, x.addr, Pub(w, x), false);
            ServerOk(w, s.(serverKeys := keys))
  {
    var keys := Install(w.group, ServerEnv(w, s).scalar, s.serverKeys, x.addr, Pub(w, x), false);
    assert PointOf(w, s.lives, x.addr, x.life, keys[x.addr].public);
  }

  /** What clients send never ends the server's program: the keys in their exchange requests have both coordinates. */
  lemma ServerGoesOn(w: World, s: State, t: Taken)
    requires Inv(w, s) && t in s.held && t.p.Some?
    ensures !EndsServer(ServerEnv(w, s), t.p.value)
  {
    assert HeldOk(w, s, t) && DatagramOk(w, s, t.d);
    KeyContent(t.d.meta, Pub(w, t.d.from));
  }

  lemma KexServerKeeps(w: World, s: State, d: Datagram, stale: string)
    requires Inv(w, s) && d in s.net && d.to == w.server && Get(d.meta, KEY_TARGET) == TARGET_KEX_SERVER
    ensures var p := Received(d.meta, PrintKey(Pub(w, d.from)));
            && Content(d.meta, d.text) == Some(p)
            && Inv(w, AfterReceive(s, AnswerKexServer(ServerEnv(w, s), s.serverKeys, d.from.addr, p, stale)))
  {
    assert DatagramOk(w, s, d);
    var ref := d.meta[KEY_REF];
    assert AskOk(w, s, ref);
    KeyContent(d.meta, Pub(w, d.from));
    KeyReplyExempt(ref, d.from.addr, Pub(w, Now(s, w.server)));
    RegisterOk(w, s, d.from);
    var p := Received(d.meta, PrintKey(Pub(w, d.from)));
    var r := AnswerKexServer(ServerEnv(w, s), s.serverKeys, d.from.addr, p, stale);
    ReplyKeeps(w, s, r.keys, r.out);
  }

  /** What a request for a client's key says. */
  lemma KexClientContent(w: World, s: State, d: Datagram)
    requires Inv(w, s) && d in s.net && d.to == w.server && Get(d.meta, KEY_TARGET) == TARGET_KEX_CLIENT
    ensures KEY_REF in d.meta && AskedBy(s, d.meta[KEY_REF], d.from) && s.asked[d.meta[KEY_REF]].what.ClientKey?
    ensures var addr := s.asked[d.meta[KEY_REF]].what.addr;
            && d.text == Base64.Encode(PrintAddr(addr)) && AddrFrom(ServerEnv(w, s), PrintAddr(addr)) == Some(addr)
            && Content(d.meta, d.text) == Some(Received(d.meta, PrintAddr(addr)))
  {
    assert DatagramOk(w, s, d);
    DistinctTargets();
    assert AskOk(w, s, d.meta[KEY_REF]);
    Base64.RoundTrip(PrintAddr(s.asked[d.meta[KEY_REF]].what.addr));
    AddrRoundTrip(s.asked[d.meta[KEY_REF]].what.addr);
  }

  lemma KexClientKeeps(w: World, s: State, d: Datagram, stale: string)
    requires Inv(w, s) && d in s.net && d.to == w.server && Get(d.meta, KEY_TARGET) == TARGET_KEX_CLIENT
    ensures var p := Content(d.meta, d.text);
            && p.Some?
            && Inv(w, AfterReceive(s, AnswerKexClient(ServerEnv(w, s), s.serverKeys, d.from.addr, p.value, stale)))
  {
    assert DatagramOk(w, s, d);
    KexClientContent(w, s, d);
    var ref := d.meta[KEY_REF];
    var addr := s.asked[ref].what.addr;
    if addr in s.serverKeys {
      KeyReplyExempt(ref, d.from.addr, s.serverKeys[addr].public);
    } else {
      ErrOutPlain(ref, d.from.addr, "packet pipeline error: " + "client non-existent", stale);
    }
    var r := AnswerKexClient(ServerEnv(w, s), s.serverKeys, d.from.addr, Received(d.meta, PrintAddr(addr)), stale);
    ReplyKeeps(w, s, s.serverKeys, r.out);
  }

  /** An answer that bears no exchange's reference says nothing that matters to the invariant. */
  lemma PlainReplyKeeps(w: World, s: State, o: Outgoing)
    requires Inv(w, s)
    requires KEY_REF in o.meta && o.meta[KEY_REF] in s.used && o.meta[KEY_REF] !in s.asked
    requires Get(o.meta, KEY_TARGET) == ""
    ensures Inv(w, AfterReceive(s, Reply(s.serverKeys, o)))
  {
    ReplyKeeps(w, s, s.serverKeys, o);
  }

  lemma OtherAnswerKeeps(w: World, s: State, from: string, p: Received, stale: string)
    requires Inv(w, s) && KEY_REF in p.meta && p.meta[KEY_REF] in s.used && p.meta[KEY_REF] !in s.asked
    requires Get(p.meta, KEY_TARGET) != TARGET_KEX_SERVER && Get(p.meta, KEY_TARGET) != TARGET_KEX_CLIENT
    ensures Inv(w, AfterReceive(s, Answer(ServerEnv(w, s), s.serverKeys, from, p, stale)))
  {
    var r := Answer(ServerEnv(w, s), s.serverKeys, from, p, stale);
    DistinctKeys();
    ErrOutPlain(Ref(p), from, "packet pipeline error: " + "target not found", stale);
    PlainReplyKeeps(w, s, r.out);
  }

  lemma MalformedKeeps(w: World, s: State, from: string, stale: string)
    requires Inv(w, s)
    ensures Inv(w, AfterReceive(s, Handle(ServerEnv(w, s), s.serverKeys, from, None, stale)))
  {
    ErrOutPlain("", from, "malformed packet", stale);
    PlainReplyKeeps(w, s, ErrOut("", from, "malformed packet", stale));
  }

  lemma ServerReceiveKeeps(w: World, s: State, d: Datagram, stale: string)
    requires Inv(w, s) && d in s.net && d.to == w.server
    ensures Inv(w, AfterReceive(s, Handle(ServerEnv(w, s), s.serverKeys, d.from.addr, Content(d.meta, d.text), stale)))
  {
    assert DatagramOk(w, s, d);
    var target, p := Get(d.meta, KEY_TARGET), Content(d.meta, d.text);
    DistinctTargets();
    if target == TARGET_KEX_SERVER {
      KexServerKeeps(w, s, d, stale);
    } else if target == TARGET_KEX_CLIENT {
      KexClientKeeps(w, s, d, stale);
    } else if p.Some? {
      OtherAnswerKeeps(w, s, d.from.addr, p.value, stale);
    } else {
      MalformedKeeps(w, s, d.from.addr, stale);
    }
  }

  /** What the server reads in a datagram: its content if it is readable, else nothing. */
  function ReadBy(w: World, s: State, d: Datagram): Option<Received> {
    if Readable(w, s, d) then Content(d.meta, d.text) else None
  }

  lemma OpenedIs(w: World, s: State, d: Datagram, pooled: PktState)
    requires Sound(w) && Inv(w, s) && d in s.net && d.to == w.server
    ensures Enabled(w, s, ServerOpen(d, pooled)) && Opened(w, s, d, pooled) == Taken(d, ReadBy(w, s, d))
  {
    ServerRecovers(w, s, d, pooled);
  }

  /** Opening and answering, with nothing in between. */
  lemma ServerTakes(w: World, s: State, d: Datagram, pooled: PktState, stale: string)
    requires Sound(w) && Inv(w, s) && d in s.net && d.to == w.server
    ensures var p := ReadBy(w, s, d);
            Do(w, Do(w, s, ServerOpen(d, pooled)), ServerAnswer(Taken(d, p), stale)) ==
            AfterReceive(s, Handle(ServerEnv(w, s), s.serverKeys, d.from.addr, p, stale))
  {
    OpenedIs(w, s, d, pooled);
    OpenThenAnswer(w, s, d, pooled, ReadBy(w, s, d), stale);
  }

  lemma OpenThenAnswer(w: World, s: State, d: Datagram, pooled: PktState, p: Option<Received>, stale: string)
    requires Enabled(w, s, ServerOpen(d, pooled)) && Opened(w, s, d, pooled) == Taken(d, p)
    ensures Do(w, Do(w, s, ServerOpen(d, pooled)), ServerAnswer(Taken(d, p), stale)) ==
            AfterReceive(s, Handle(ServerEnv(w, s), s.serverKeys, d.from.addr, p, stale))
  {
    var s1 := s.(held := s.held + multiset{Taken(d, p)});
    assert Do(w, s, ServerOpen(d, pooled)) == s1;
    AnswerHeld(w, s, Taken(d, p), stale);
  }

  lemma AnswerHeld(w: World, s: State, t: Taken, stale: string)
    ensures var s1 := s.(held := s.held + multiset{t});
            Do(w, s1, ServerAnswer(t, stale)) ==
            AfterReceive(s, Handle(ServerEnv(w, s), s.serverKeys, t.d.from.addr, t.p, stale))
  {
    var s1 := s.(held := s.held + multiset{t});
    assert s1.held - multiset{t} == s.held;
    assert ServerEnv(w, s1) == ServerEnv(w, s);
    assert Do(w, s1, ServerAnswer(t, stale)) == AfterAnswer(w, s1, t, stale);
  }

  /** Taking packets off the queue and marking keys as sent. */
  lemma Shrink(w: World, s: State, keys: Keys, queue: multiset<Outgoing>)
    requires Inv(w, s) && queue <= s.queue
    requires keys.Keys == s.serverKeys.Keys && ServerOk(w, s.(serverKeys := keys))
    ensures Inv(w, s.(serverKeys := keys, queue := queue))
  {
    var s' := s.(serverKeys := keys, queue := queue);
    KeepsServer(w, s, s', None, None);
  }

  /** The server's transform changes no key, only marks. */
  lemma MarksOnly(w: World, s: State, o: Outgoing, nonce: Bytes)
    requires ServerOk(w, s)
    ensures var r := EncryptTransport(w.aead, s.serverKeys, o.meta, o.dest, nonce, Json.Marshal(o.meta, o.text));
            && r.keys.Keys == s.serverKeys.Keys && ServerOk(w, s.(serverKeys := r.keys))
            && (r.err.Some? ==> !Exempt(o.meta) && r.keys == s.serverKeys)
  {
    if o.dest in s.serverKeys {
      assert EntryOk(w, s.lives, o.dest, s.serverKeys[o.dest].(keySent := true));
    }
  }

  /** It seals under the value shared with the stored point. */
  lemma ServerSeals(w: World, s: State, o: Outgoing, nonce: Bytes)
    requires ServerOk(w, s) && |nonce| == NONCE_SIZE
    requires EncryptTransport(w.aead, s.serverKeys, o.meta, o.dest, nonce, Json.Marshal(o.meta, o.text)).err.None?
    ensures var r := EncryptTransport(w.aead, s.serverKeys, o.meta, o.dest, nonce, Json.Marshal(o.meta, o.text));
            var d := Sent(w, s, o, nonce, r.data);
            WireOk(w, d) && SealedOk(w, s.lives, d)
  {
    if o.dest in s.serverKeys {
      assert EntryOk(w, s.lives, o.dest, s.serverKeys[o.dest]);
    }
  }

  lemma SentOk(w: World, s: State, d: Datagram)
    requires Inv(w, s) && d.from == Now(s, w.server) && WireOk(w, d) && SealedOk(w, s.lives, d) && d.dest == d.to
    requires OutOk(w, s, d.from, d.to, d.meta, d.text)
    ensures DatagramOk(w, s, d)
  {
    assert forall r :: r in s.asked ==> AskOk(w, s, r);
    assert TARGET_KEX_SERVER != "" && TARGET_KEX_CLIENT != "";
  }

  lemma RequeuedOk(w: World, s: State, o: Outgoing, err: string, stale: string)
    requires Inv(w, s) && OutOk(w, s, Now(s, w.server), o.dest, o.meta, o.text) && !Exempt(o.meta)
    ensures var e := PipelineError(o, err, stale); OutOk(w, s, Now(s, w.server), e.dest, e.meta, e.text)
  {
    ErrOutPlain(o.meta[KEY_REF], o.dest, "pipeline error: " + ("pipeline terminated: " + err), stale);
  }

  lemma WrittenKeeps(w: World, s: State, o: Outgoing, nonce: Bytes)
    requires Inv(w, s) && o in s.queue && |nonce| == NONCE_SIZE
    requires EncryptTransport(w.aead, s.serverKeys, o.meta, o.dest, nonce, Json.Marshal(o.meta, o.text)).err.None?
    ensures var r := EncryptTransport(w.aead, s.serverKeys, o.meta, o.dest, nonce, Json.Marshal(o.meta, o.text));
            Inv(w, AfterEmit(w, s, o, nonce, Emission.Written(r.keys, r.data)))
  {
    var r := EncryptTransport(w.aead, s.serverKeys, o.meta, o.dest, nonce, Json.Marshal(o.meta, o.text));
    var d, t := Sent(w, s, o, nonce, r.data), s.(serverKeys := r.keys, queue := s.queue - multiset{o});
    MarksOnly(w, s, o, nonce);
    ServerSeals(w, s, o, nonce);
    Shrink(w, s, r.keys, s.queue - multiset{o});
    OutStays(w, s, t, Now(s, w.server), o.dest, o.meta, o.text);
    SentOk(w, t, d);
    OneMoreDatagram(w, t, d);
  }

  lemma RequeuedKeeps(w: World, s: State, o: Outgoing, err: string, nonce: Bytes, stale: string)
    requires Inv(w, s) && o in s.queue && !Exempt(o.meta)
    ensures Inv(w, AfterEmit(w, s, o, nonce, Requeued(s.serverKeys, PipelineError(o, err, stale))))
  {
    var t, e := s.(queue := s.queue - multiset{o}), PipelineError(o, err, stale);
    Shrink(w, s, s.serverKeys, s.queue - multiset{o});
    OutStays(w, s, t, Now(s, w.server), o.dest, o.meta, o.text);
    RequeuedOk(w, t, o, err, stale);
    ReplyKeeps(w, t, t.serverKeys, e);
  }

  lemma ServerEmitKeeps(w: World, s: State, o: Outgoing, resolves: bool, nonce: Bytes, stale: string)
    requires Inv(w, s) && o in s.queue && |nonce| == NONCE_SIZE
    ensures Inv(w, AfterEmit(w, s, o, nonce, Emit(w.aead, s.serverKeys, o, resolves, nonce, stale)))
  {
    var r := EncryptTransport(w.aead, s.serverKeys, o.meta, o.dest, nonce, Json.Marshal(o.meta, o.text));
    MarksOnly(w, s, o, nonce);
    if !resolves {
      Shrink(w, s, s.serverKeys, s.queue - multiset{o});
    } else if r.err.None? {
      WrittenKeeps(w, s, o, nonce);
    } else {
      RequeuedKeeps(w, s, o, r.err.value, nonce, stale);
    }
  }

  // ---------- restarts ----------

  lemma RestartGrows(w: World, s: State, x: string)
    ensures Grows(w, s, Restarted(w, s, x))
  {
  }

  lemma RestartServerKeeps(w: World, s: State)
    requires Inv(w, s)
    ensures Inv(w, Restarted(w, s, w.server))
  {
    RestartGrows(w, s, w.server);
    Keeps(w, s, Restarted(w, s, w.server), None, None, w.server);
  }

  lemma RestartClientKeeps(w: World, s: State, x: string)
    requires Inv(w, s) && x != w.server
    ensures Inv(w, Restarted(w, s, x))
  {
    var s' := Restarted(w, s, x);
    RestartGrows(w, s, x);
    forall y | y in s'.serverKeys
      ensures EntryOk(w, s'.lives, y, s'.serverKeys[y])
    {
      assert EntryOk(w, s.lives, y, s.serverKeys[y]);
      GenuineStays(w, s, s', y, s.serverKeys[y].public);
    }
    Keeps(w, s, s', None, None, x);
  }

  // ---------- every run ----------

  lemma PreparedKeeps(w: World, s: State, step: Step)
    requires Inv(w, s) && IsSend(step) && Enabled(w, s, step)
    ensures Inv(w, Prepared(s, step)) && Grows(w, s, Prepared(s, step))
  {
    match step
    case SendApp(c, dest, m, text, nonce) => UseRefKeeps(w, s, Get(m, KEY_REF));
    case AskServer(c, dest, ref, nonce) =>
      NewAskGrows(w, s, ref, c, ServerKey);
      NewAskKeeps(w, s, ref, c, ServerKey);
    case AskClient(c, dest, ref, addr, nonce) =>
      NewAskGrows(w, s, ref, c, ClientKey(addr));
      NewAskKeeps(w, s, ref, c, ClientKey(addr));
  }

  /** What clients send is what the invariant says of requests. */
  lemma PreparedIs(w: World, s: State, step: Step)
    requires IsSend(step) && Enabled(w, s, step)
    ensures var t, m := Prepared(s, step), MetaOf(step);
            && KEY_REF in m && m[KEY_REF] in t.used
            && RequestIs(w, t, Now(t, step.c), TextOf(w, s, step), m[KEY_REF], Get(m, KEY_TARGET))
  {
    DistinctKeys();
    DistinctTargets();
  }

  lemma SendStepKeeps(w: World, s: State, step: Step)
    requires Inv(w, s) && IsSend(step) && Enabled(w, s, step)
    ensures Inv(w, DoSend(w, s, step))
  {
    PreparedKeeps(w, s, step);
    PreparedIs(w, s, step);
    SendKeeps(w, Prepared(s, step), step.c, step.dest, MetaOf(step), TextOf(w, s, step), step.nonce);
  }

  lemma OpenKeeps(w: World, s: State, d: Datagram, pooled: PktState)
    requires Sound(w) && Inv(w, s) && d in s.net && d.to == w.server
    ensures Inv(w, Do(w, s, ServerOpen(d, pooled)))
  {
    OpenedIs(w, s, d, pooled);
    HoldKeeps(w, s, s.held + multiset{Taken(d, ReadBy(w, s, d))});
  }

  /** More or fewer datagrams to answer. */
  lemma HoldKeeps(w: World, s: State, held: multiset<Taken>)
    requires Inv(w, s) && forall t :: t in held ==> HeldOk(w, s, t)
    ensures Inv(w, s.(held := held))
  {
    var s' := s.(held := held);
    assert HeldAll(w, s') by {
      assert forall t :: HeldOk(w, s, t) ==> HeldOk(w, s', t);
    }
    ClientStays(w, s, s', "");
    Keeps(w, s, s', None, None, "");
  }

  lemma AnswerKeeps(w: World, s: State, t: Taken, stale: string)
    requires Inv(w, s) && t in s.held
    ensures Inv(w, AfterAnswer(w, s, t, stale))
  {
    assert HeldOk(w, s, t);
    var s' := s.(held := s.held - multiset{t});
    HoldKeeps(w, s, s'.held);
    assert ServerEnv(w, s') == ServerEnv(w, s);
    HandleKeeps(w, s', t.d, t.p, stale);
  }

  lemma HandleKeeps(w: World, s: State, d: Datagram, p: Option<Received>, stale: string)
    requires Inv(w, s) && d in s.net && d.to == w.server && (p == None || p == Content(d.meta, d.text))
    ensures Inv(w, AfterReceive(s, Handle(ServerEnv(w, s), s.serverKeys, d.from.addr, p, stale)))
  {
    if p.Some? {
      ServerReceiveKeeps(w, s, d, stale);
    } else {
      MalformedKeeps(w, s, d.from.addr, stale);
    }
  }

  lemma StepKeeps(w: World, s: State, step: Step)
    requires Sound(w) && Inv(w, s)
    ensures Inv(w, Do(w, s, step))
  {
    if Enabled(w, s, step) {
      match step
      case ServerOpen(d, pooled) => OpenKeeps(w, s, d, pooled);
      case ServerAnswer(t, stale) => AnswerKeeps(w, s, t, stale);
      case ServerEmit(o, resolves, nonce, stale) => ServerEmitKeeps(w, s, o, resolves, nonce, stale);
      case ClientReceive(d, pooled) =>
        ClientRecovers(w, s, d, pooled);
        LearnKeeps(w, s, d, Receive(pooled, ClientOpen(w, ClientOf(s, d.to), d.wire), Reject));
      case Extend(c) => SameClient(w, s, c, ClientOf(s, c).(extended := true));
      case Restart(x) =>
        if x == w.server {
          RestartServerKeeps(w, s);
        } else {
          RestartClientKeeps(w, s, x);
        }
      case _ => SendStepKeeps(w, s, step);
    }
  }

  lemma {:induction false} RunKeeps(w: World, s: State, steps: seq<Step>)
    requires Sound(w) && Inv(w, s)
    ensures Inv(w, Exec(w, s, steps))
  {
    if steps != [] {
      RunKeeps(w, s, steps[..|steps| - 1]);
      StepKeeps(w, Exec(w, s, steps[..|steps| - 1]), steps[|steps| - 1]);
    }
  }

  function After(w: World, steps: seq<Step>): State {
    Exec(w, Init(), steps)
  }

  lemma InitOk(w: World)
    ensures Inv(w, Init())
  {
  }

  lemma ReachableOk(w: World, steps: seq<Step>)
    requires Sound(w)
    ensures Inv(w, After(w, steps))
  {
    InitOk(w);
    RunKeeps(w, Init(), steps);
  }

  // ---------- what no step takes back ----------

  /** A client's send changes only the network and its own table. */
  lemma SendOnly(w: World, s: State, c: string, dest: string, m: Meta, text: string, nonce: Bytes)
    ensures var s' := SendFrame(w, s, c, dest, m, text, nonce);
            var d := Outbound(w, s, c, dest, m, text, nonce);
            && s' == s.(clients := s'.clients, net := s'.net)
            && s'.net == (if d.Some? then s.net + {d.value} else s.net)
            && (forall x :: x != c ==> ClientOf(s', x) == ClientOf(s, x))
            && ClientOf(s', c).extended == ClientOf(s, c).extended
  {
  }

  /** With marked keys, as clients have them, it changes no table at all. */
  lemma SendKeepsTables(w: World, s: State, c: string, dest: string, m: Meta, text: string, nonce: Bytes)
    requires ClientOk(w, s, c) && |nonce| == NONCE_SIZE && c != w.server
    ensures ClientOf(SendFrame(w, s, c, dest, m, text, nonce), c) == ClientOf(s, c)
  {
    ClientSeals(w, s, c, dest, m, text, nonce);
    var cl := ClientOf(s, c);
    assert cl == cl.(keys := cl.keys);
  }

  lemma OneClient(s: State, c: string, cl: Client)
    ensures var s' := s.(clients := s.clients[c := cl]);
            ClientOf(s', c) == cl && forall x :: x != c ==> ClientOf(s', x) == ClientOf(s, x)
  {
  }

  lemma StoreOnly(w: World, s: State, c: string, addr: string, pub: Point)
    ensures var s' := Store(w, s, c, addr, pub);
            && s' == s.(clients := s'.clients)
            && (forall x :: x != c ==> ClientOf(s', x) == ClientOf(s, x))
            && ClientOf(s', c).extended == ClientOf(s, c).extended
  {
    OneClient(s, c, ClientOf(Store(w, s, c, addr, pub), c));
  }

  lemma LearnOnly(w: World, s: State, c: string, p: Option<Received>)
    ensures var s' := Learn(w, s, c, p);
            && s' == s.(asked := s'.asked, clients := s'.clients)
            && (forall r :: r in s.asked <==> r in s'.asked)
            && (forall r :: r in s.asked ==> SameAsk(s'.asked[r], s.asked[r]))
            && (forall x :: x != c ==> ClientOf(s', x) == ClientOf(s, x))
            && ClientOf(s', c).extended == ClientOf(s, c).extended
  {
    if p.Some? && Awaits(s, c, Ref(p.value)) {
      var s1 := Answered(s, Ref(p.value));
      match ReadingOf(w, p.value.data)
      case NoKey =>
      case Incomplete => OneClient(s1, c, ClientOf(s1, c).(ended := true));
      case Complete(pub) => StoreOnly(w, s1, c, Owner(w, s.asked[Ref(p.value)].what), pub);
    }
  }

  lemma EmitOnly(w: World, s: State, o: Outgoing, nonce: Bytes, x: Emission)
    requires (x.Written? || x.Requeued?) ==> s.serverKeys.Keys <= x.keys.Keys
    ensures var s' := AfterEmit(w, s, o, nonce, x);
            && s' == s.(serverKeys := s'.serverKeys, queue := s'.queue, net := s'.net)
            && s.net <= s'.net && s.serverKeys.Keys <= s'.serverKeys.Keys
  {
  }

  lemma EmitKeepsKeys(w: World, s: State, o: Outgoing, resolves: bool, nonce: Bytes, stale: string)
    ensures var x := Emit(w.aead, s.serverKeys, o, resolves, nonce, stale);
            (x.Written? || x.Requeued?) ==> s.serverKeys.Keys == x.keys.Keys
  {
  }

  lemma HandleKeepsKeys(e: Env, keys: Keys, from: string, p: Option<Received>, stale: string)
    ensures keys.Keys <= Handle(e, keys, from, p, stale).keys.Keys
  {
  }

  /** A sending step: one datagram more, unless sealing failed, and no table changed. */
  lemma SendStepOnly(w: World, s: State, step: Step)
    requires IsSend(step) && ClientOk(w, s, step.c) && |step.nonce| == NONCE_SIZE && step.c != w.server
    ensures var s' := DoSend(w, s, step);
            var d := Outbound(w, Prepared(s, step), step.c, step.dest, MetaOf(step), TextOf(w, s, step), step.nonce);
            && s' == Prepared(s, step).(clients := s'.clients, net := s'.net)
            && s'.net == (if d.Some? then s.net + {d.value} else s.net)
            && (forall x :: ClientOf(s', x) == ClientOf(s, x))
  {
    var t := Prepared(s, step);
    assert t == s.(used := t.used, asked := t.asked);
    assert ClientOk(w, t, step.c);
    SendOnly(w, t, step.c, step.dest, MetaOf(step), TextOf(w, s, step), step.nonce);
    SendKeepsTables(w, t, step.c, step.dest, MetaOf(step), TextOf(w, s, step), step.nonce);
  }

  lemma GrowsOn(w: World, s: State, t: State, t': State)
    requires Grows(w, s, t) && t' == t.(clients := t'.clients, net := t'.net) && t.net <= t'.net
    ensures Grows(w, s, t')
  {
  }

  lemma SendStepGrows(w: World, s: State, step: Step)
    requires Inv(w, s) && IsSend(step) && Enabled(w, s, step)
    ensures Grows(w, s, Do(w, s, step)) && s.net <= Do(w, s, step).net
  {
    PreparedKeeps(w, s, step);
    assert ClientOk(w, s, step.c);
    SendStepOnly(w, s, step);
    GrowsOn(w, s, Prepared(s, step), Do(w, s, step));
  }

  lemma OpenGrows(w: World, s: State, t: Taken)
    ensures Grows(w, s, s.(held := s.held + multiset{t}))
  {
  }

  lemma AnswerGrows(w: World, s: State, t: Taken, stale: string)
    ensures Grows(w, s, AfterAnswer(w, s, t, stale)) && AfterAnswer(w, s, t, stale).net == s.net
  {
    HandleKeepsKeys(ServerEnv(w, s), s.serverKeys, t.d.from.addr, t.p, stale);
  }

  lemma EmitGrows(w: World, s: State, o: Outgoing, resolves: bool, nonce: Bytes, stale: string)
    ensures var s' := AfterEmit(w, s, o, nonce, Emit(w.aead, s.serverKeys, o, resolves, nonce, stale));
            Grows(w, s, s') && s.net <= s'.net
  {
    EmitKeepsKeys(w, s, o, resolves, nonce, stale);
    EmitOnly(w, s, o, nonce, Emit(w.aead, s.serverKeys, o, resolves, nonce, stale));
  }

  lemma LearnGrows(w: World, s: State, c: string, p: Option<Received>)
    ensures Grows(w, s, Learn(w, s, c, p)) && s.net == Learn(w, s, c, p).net
  {
    LearnOnly(w, s, c, p);
  }

  lemma ClientsGrow(w: World, s: State, clients: map<string, Client>)
    ensures Grows(w, s, s.(clients := clients))
  {
  }

  lemma StepGrows(w: World, s: State, step: Step)
    requires Inv(w, s)
    ensures Grows(w, s, Do(w, s, step))
  {
    if !Enabled(w, s, step) {
      ClientsGrow(w, s, s.clients);
    } else {
      match step
      case ServerOpen(d, pooled) => OpenGrows(w, s, Opened(w, s, d, pooled));
      case ServerAnswer(t, stale) => AnswerGrows(w, s, t, stale);
      case ServerEmit(o, resolves, nonce, stale) => EmitGrows(w, s, o, resolves, nonce, stale);
      case ClientReceive(d, pooled) =>
        LearnGrows(w, s, d.to, Receive(pooled, ClientOpen(w, ClientOf(s, d.to), d.wire), Reject));
      case Extend(c) => ClientsGrow(w, s, s.clients[c := ClientOf(s, c).(extended := true)]);
      case Restart(x) => RestartGrows(w, s, x);
      case _ => SendStepGrows(w, s, step);
    }
  }

  /** The server's own steps touch no client and no life. */
  lemma AnswerOnly(w: World, s: State, t: Taken, stale: string)
    ensures var s' := Do(w, s, ServerAnswer(t, stale));
            s' == s.(serverKeys := s'.serverKeys, held := s'.held, queue := s'.queue)
  {
  }

  lemma EmitStepOnly(w: World, s: State, o: Outgoing, resolves: bool, nonce: Bytes, stale: string)
    ensures var s' := Do(w, s, ServerEmit(o, resolves, nonce, stale));
            s' == s.(serverKeys := s'.serverKeys, queue := s'.queue, net := s'.net)
  {
    EmitKeepsKeys(w, s, o, resolves, nonce, stale);
    EmitOnly(w, s, o, nonce, Emit(w.aead, s.serverKeys, o, resolves, nonce, stale));
  }

  lemma ServerStepOnly(w: World, s: State, step: Step)
    requires step.ServerOpen? || step.ServerAnswer? || step.ServerEmit?
    ensures var s' := Do(w, s, step);
            s' == s.(serverKeys := s'.serverKeys, held := s'.held, queue := s'.queue, net := s'.net)
  {
    match step
    case ServerOpen(d, pooled) =>
    case ServerAnswer(t, stale) => AnswerOnly(w, s, t, stale);
    case ServerEmit(o, resolves, nonce, stale) => EmitStepOnly(w, s, o, resolves, nonce, stale);
  }

  lemma ClientReceiveOnly(w: World, s: State, d: Datagram, pooled: PktState)
    requires Enabled(w, s, ClientReceive(d, pooled))
    ensures var s' := Do(w, s, ClientReceive(d, pooled));
            && s' == s.(asked := s'.asked, clients := s'.clients)
            && (forall x :: x != d.to ==> ClientOf(s', x) == ClientOf(s, x))
  {
    LearnOnly(w, s, d.to, Receive(pooled, ClientOpen(w, ClientOf(s, d.to), d.wire), Reject));
  }
}
