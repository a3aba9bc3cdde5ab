/** What the server does with a received frame and with a packet to send, as functions of its key table. */
module Relay {
  import opened Bytes
  import opened Cipher
  import opened Curve
  import opened PacketState
  import opened Pipeline
  import opened Sealing
  import Base64
  import Json

  const TARGET_RELAY := "svr.relay"
  const KEY_RELAY_FROM := "_relay_src"
  const KEY_RELAY_TO := "_relay_dst"

  /** The library code the server is built on, and its private scalar; the last two are a JSON decoder's answers for
    keys and address requests in another layout than the printed one. */
  datatype Env = Env(
    group: Group, aead: Aead, scalar: nat, otherKey: Bytes -> KeyReading, otherAddr: Bytes -> Option<string>)

  function KeyFrom(e: Env, data: Bytes): KeyReading {
    ReadKey(data, e.otherKey(data))
  }

  function AddrFrom(e: Env, data: Bytes): Option<string> {
    ReadAddr(data, e.otherAddr(data))
  }

  datatype Received = Received(meta: Meta, data: Bytes)

  /** A packet on its way out: the data text is what marshalling sends, closed or not. */
  datatype Outgoing = Outgoing(dest: string, meta: Meta, text: string)

  function ToSend(s: PktState): Outgoing {
    Outgoing(s.dest, s.meta, s.committed)
  }

  /** Decoding into a packet from the pool, which starts with the empty reference. */
  function Receive(pooled: PktState, bin: Bytes, other: Decoded): Option<Received> {
    var start, o := Recycled(pooled, "", ""), Decoding(bin, other);
    if DecodeSucceeds(start, o) then Some(Received(AfterDecode(start, o).meta, AfterDecode(start, o).buff)) else None
  }

  /** An error packet is sent with whatever text its pooled packet had, `stale`. */
  function ErrOut(ref: string, dest: string, msg: string, stale: string): Outgoing {
    ToSend(ErrorPkt(PktState(map[], [], stale, ""), ref, dest, msg))
  }

  // ---------- incoming ----------

  datatype Reply = Reply(keys: Keys, out: Outgoing)

  function Ref(p: Received): string {
    Get(p.meta, KEY_REF)
  }

  function Refused(keys: Keys, from: string, p: Received, msg: string, stale: string): Reply {
    Reply(keys, ErrOut(Ref(p), from, "packet pipeline error: " + msg, stale))
  }

  function Forwarded(from: string, p: Received): Outgoing {
    Outgoing(Get(p.meta, KEY_RELAY_TO), map[KEY_REF := Ref(p)][KEY_RELAY_FROM := from], Base64.Encode(p.data))
  }

  /** The server's program ends on the packet: it asks for an exchange with a key without both coordinates. */
  predicate EndsServer(e: Env, p: Received) {
    Get(p.meta, KEY_TARGET) == TARGET_KEX_SERVER && KeyFrom(e, p.data).Incomplete?
  }

  function AnswerKexServer(e: Env, keys: Keys, from: string, p: Received, stale: string): Reply {
    match KeyFrom(e, p.data)
    case Complete(pub) =>
      Reply(Install(e.group, e.scalar, keys, from, pub, false), KeyReply(Ref(p), from, PublicOf(e.group, e.scalar)))
    case _ => Refused(keys, from, p, "malformed packet", stale)
  }

  function AnswerKexClient(e: Env, keys: Keys, from: string, p: Received, stale: string): Reply {
    match AddrFrom(e, p.data)
    case None => Refused(keys, from, p, "malformed packet", stale)
    case Some(addr) =>
      if addr !in keys then Refused(keys, from, p, "client non-existent", stale)
      else Reply(keys, KeyReply(Ref(p), from, keys[addr].public))
  }

  /** The answer to a decoded packet on which the program does not end: forwarded, answered with a key, or refused. */
  function Answer(e: Env, keys: Keys, from: string, p: Received, stale: string): Reply {
    var target := Get(p.meta, KEY_TARGET);
    if target == TARGET_RELAY then Reply(keys, Forwarded(from, p))
    else if target == TARGET_KEX_SERVER then AnswerKexServer(e, keys, from, p, stale)
    else if target == TARGET_KEX_CLIENT then AnswerKexClient(e, keys, from, p, stale)
    else Refused(keys, from, p, "target not found", stale)
  }

  /** A reply with a public key is exempt from sealing. */
  function KeyReply(ref: string, dest: string, pub: Point): Outgoing {
    Outgoing(dest, map[KEY_REF := ref][KEY_NO_CRYPTO := "true"], Base64.Encode(PrintKey(pub)))
  }

  function Handle(e: Env, keys: Keys, from: string, p: Option<Received>, stale: string): Reply {
    match p
    case None => Reply(keys, ErrOut("", from, "malformed packet", stale))
    case Some(r) => Answer(e, keys, from, r, stale)
  }

  /** What the callbacks of a target work on: the key table, the response and what has been enqueued so far. */
  datatype Call = Call(keys: Keys, resp: PktState, sent: seq<Outgoing>)

  function RelayCallback(from: string, p: Received): Stage<Call> {
    (f: Flow<Call>) =>
      var fwd := Recycled(FRESH, Ref(p), Get(p.meta, KEY_RELAY_TO));
      var full := Apply(Apply(Apply(fwd, Add(KEY_RELAY_FROM, from)), Write(p.data)), Close);
      Flow(STOP_NOOP, "packet forwarded", f.state.(sent := f.state.sent + [ToSend(full)]))
  }

  function KexServerCallback(e: Env, from: string, p: Received): Stage<Call> {
    (f: Flow<Call>) =>
      match KeyFrom(e, p.data)
      case NoKey => Flow(STOP_ERROR, "malformed packet", f.state)
      case Incomplete => f
      case Complete(pub) =>
        var marked := Apply(f.state.resp, Add(KEY_NO_CRYPTO, "true"));
        var resp := Apply(marked, Write(PrintKey(PublicOf(e.group, e.scalar))));
        var keys := Install(e.group, e.scalar, f.state.keys, from, pub, false);
        Flow(STOP_CLOSE_SEND, f.msg, f.state.(keys := keys, resp := resp))
  }

  function KexClientCallback(e: Env, p: Received): Stage<Call> {
    (f: Flow<Call>) =>
      match AddrFrom(e, p.data)
      case None => Flow(STOP_ERROR, "malformed packet", f.state)
      case Some(addr) =>
        if addr !in f.state.keys then Flow(STOP_ERROR, "client non-existent", f.state)
        else
          var marked := Apply(f.state.resp, Add(KEY_NO_CRYPTO, "true"));
          var resp := Apply(marked, Write(PrintKey(f.state.keys[addr].public)));
          f.(state := f.state.(resp := resp))
  }

  /** The targets of a server with the crypto extension and no others. */
  function Targets(e: Env, from: string, p: Received): Queues<Call> {
    AddTo(AddTo(AddTo(map[], TARGET_RELAY, RelayCallback(from, p)),
                TARGET_KEX_SERVER, KexServerCallback(e, from, p)),
          TARGET_KEX_CLIENT, KexClientCallback(e, p))
  }

  /** The decision after the packet pipeline has run: the key table and everything that was enqueued. */
  function Conclude(from: string, ref: string, err: Option<string>, f: Flow<Call>, stale: string): (Keys,
                    seq<Outgoing>) {
    var Call(keys, resp, sent) := f.state;
    if err.Some? then (keys, sent + [ErrOut(ref, from, "packet pipeline error: " + err.value, stale)])
    else if f.stat == STOP_NOOP then (keys, sent)
    else if f.stat == RELAY then
      var relayTo := Get(resp.meta, KEY_RELAY_TO);
      if relayTo == "" then (keys, sent)
      else (keys, sent + [ToSend(Apply(Apply(Apply(resp, SetDest(relayTo)), Add(KEY_RELAY_FROM, from)), Close))])
    else (keys, sent + [ToSend(Apply(resp, Close))])
  }

  lemma DistinctTargets()
    ensures TARGET_RELAY != TARGET_KEX_SERVER && TARGET_RELAY != TARGET_KEX_CLIENT
    ensures TARGET_KEX_SERVER != TARGET_KEX_CLIENT
  {
    assert |TARGET_RELAY| == 9 && |TARGET_KEX_SERVER| == 13 && |TARGET_KEX_CLIENT| == 13;
    assert TARGET_KEX_SERVER[12] == 's' && TARGET_KEX_CLIENT[12] == 'c';
  }

  lemma TargetQueues(e: Env, from: string, p: Received)
    ensures var t := Targets(e, from, p);
            && t.Keys == {TARGET_RELAY, TARGET_KEX_SERVER, TARGET_KEX_CLIENT}
            && t[TARGET_RELAY] == [RelayCallback(from, p)]
            && t[TARGET_KEX_SERVER] == [KexServerCallback(e, from, p)]
            && t[TARGET_KEX_CLIENT] == [KexClientCallback(e, p)]
  {
    DistinctTargets();
  }

  lemma RunSingle<S>(s: Stage<S>, f: Flow<S>)
    ensures Run([s], f) == s(f)
  {
    assert Run([s][1..], s(f)) == s(f);
  }

  /** Everything one decoded packet causes: the installed callbacks run, then the server acts on the status they
    leave; or nothing at all any more. */
  function Process(e: Env, keys: Keys, from: string, p: Received, pooled: PktState, stale: string):
      Option<(Keys, seq<Outgoing>)> {
    var t, target := Targets(e, from, p), Get(p.meta, KEY_TARGET);
    var ctx := Start(keys, from, p, pooled);
    if EndsServer(e, p) then None
    else Some(Conclude(from, Ref(p), PacketError(t, target, ctx), Run(Queue(t, target), ctx), stale))
  }

  function Start(keys: Keys, from: string, p: Received, pooled: PktState): Flow<Call> {
    Flow(CONTINUE, "", Call(keys, Recycled(pooled, Ref(p), from), []))
  }

  /** A target with one callback: the decision is taken on what that callback leaves. */
  lemma ProcessSingle(e: Env, keys: Keys, from: string, p: Received, pooled: PktState, stale: string, cb: Stage<Call>)
    requires var t, target := Targets(e, from, p), Get(p.meta, KEY_TARGET); target in t && t[target] == [cb]
    requires !EndsServer(e, p)
    ensures var f := cb(Start(keys, from, p, pooled));
            Process(e, keys, from, p, pooled, stale) ==
            Some(Conclude(from, Ref(p), if f.stat == STOP_ERROR then Some(f.msg) else None, f, stale))
  {
    RunSingle(cb, Start(keys, from, p, pooled));
  }

  lemma Enqueued(o: Outgoing)
    ensures [] + [o] == [o]
  {
  }

  lemma RelayReply(keys: Keys, from: string, p: Received, pooled: PktState, stale: string)
    ensures var f := RelayCallback(from, p)(Start(keys, from, p, pooled));
            && f.stat == STOP_NOOP
            && Conclude(from, Ref(p), None, f, stale) == (keys, [Forwarded(from, p)])
  {
    assert [] + p.data == p.data;
    Enqueued(Forwarded(from, p));
  }

  lemma KexServerReply(e: Env, keys: Keys, from: string, p: Received, pooled: PktState, stale: string)
    requires !KeyFrom(e, p.data).Incomplete?
    ensures var f := KexServerCallback(e, from, p)(Start(keys, from, p, pooled));
            var answer := AnswerKexServer(e, keys, from, p, stale);
            var err := if f.stat == STOP_ERROR then Some(f.msg) else None;
            Conclude(from, Ref(p), err, f, stale) == (answer.keys, [answer.out])
  {
    var key := PrintKey(PublicOf(e.group, e.scalar));
    assert [] + key == key;
    Enqueued(AnswerKexServer(e, keys, from, p, stale).out);
  }

  lemma KexClientReply(e: Env, keys: Keys, from: string, p: Received, pooled: PktState, stale: string)
    ensures var f := KexClientCallback(e, p)(Start(keys, from, p, pooled));
            var answer := AnswerKexClient(e, keys, from, p, stale);
            var err := if f.stat == STOP_ERROR then Some(f.msg) else None;
            Conclude(from, Ref(p), err, f, stale) == (answer.keys, [answer.out])
  {
    var addr := AddrFrom(e, p.data);
    if addr.Some? && addr.value in keys {
      assert [] + PrintKey(keys[addr.value].public) == PrintKey(keys[addr.value].public);
    }
    Enqueued(AnswerKexClient(e, keys, from, p, stale).out);
  }

  lemma UnknownReply(e: Env, keys: Keys, from: string, p: Received, pooled: PktState, stale: string)
    requires Get(p.meta, KEY_TARGET) !in {TARGET_RELAY, TARGET_KEX_SERVER, TARGET_KEX_CLIENT}
    ensures Process(e, keys, from, p, pooled, stale) == Some((keys, [Answer(e, keys, from, p, stale).out]))
  {
    TargetQueues(e, from, p);
    Enqueued(Answer(e, keys, from, p, stale).out);
  }

  /** An error packet to the sender of a request. */
  function Complaint(from: string, ref: string, msg: string, stale: string): Outgoing {
    Outgoing(from, map["_ref" := ref, "_stat" := "-1", "_msg" := "packet pipeline error: " + msg], stale)
  }

  lemma ErrOutIs(ref: string, dest: string, msg: string, stale: string)
    ensures ErrOut(ref, dest, "packet pipeline error: " + msg, stale) == Complaint(dest, ref, msg, stale)
  {
    assert map[KEY_REF := ref][KEY_STATUS := "-1"][KEY_MSG := "packet pipeline error: " + msg] ==
           map["_ref" := ref, "_stat" := "-1", "_msg" := "packet pipeline error: " + msg];
  }

  /** What the server enqueues after the callbacks of a target have run, by the status they left: on an error a report;
    after 2 nothing; after 3 the response itself, sent on to the address it names, with its source, or nothing if it
    names none; and otherwise the response. What the callbacks have sent themselves comes first. */
  lemma ConcludeIs(from: string, ref: string, err: Option<string>, f: Flow<Call>, stale: string)
    ensures var (keys, sent) := Conclude(from, ref, err, f, stale);
            var resp, data := f.state.resp, Base64.Encode(f.state.resp.buff);
            && keys == f.state.keys
            && sent == f.state.sent +
               if err.Some? then [Complaint(from, ref, err.value, stale)]
               else if f.stat == 2 || (f.stat == 3 && Get(resp.meta, "_relay_dst") == "") then []
               else if f.stat == 3 then
                 [Outgoing(Get(resp.meta, "_relay_dst"), resp.meta["_relay_src" := from], data)]
               else [Outgoing(resp.dest, resp.meta, data)]
  {
    if err.Some? {
      ErrOutIs(ref, from, err.value, stale);
    }
  }

  /** The reply with a public key. */
  function KeyPacket(from: string, ref: string, pub: Point): Outgoing {
    Outgoing(from, map["_ref" := ref, "_no_crypto" := "true"], Base64.Encode(PrintKey(pub)))
  }

  /** What the server does with a decoded packet, by its target: the key table and the one packet that is enqueued, if
    the program does not end. */
  predicate RepliesWith(e: Env, keys: Keys, from: string, p: Received, stale: string, r: Option<(Keys, Outgoing)>) {
    var target, ref := Get(p.meta, "_tgt"), Get(p.meta, "_ref");
    if target == "svr.relay" then
      var dst := Get(p.meta, "_relay_dst");
      r == Some((keys, Outgoing(dst, map["_ref" := ref, "_relay_src" := from], Base64.Encode(p.data))))
    else if target == "crypto.kex-cs" then
      match KeyFrom(e, p.data)
      case NoKey => r == Some((keys, Complaint(from, ref, "malformed packet", stale)))
      case Incomplete => r == None
      case Complete(pub) =>
        var keys' := keys[from := KeyInfo(false, Mul(e.group, e.scalar, pub).x, pub)];
        r == Some((keys', KeyPacket(from, ref, Mul(e.group, e.scalar, e.group.base))))
    else if target == "crypto.kex-cc" then
      match AddrFrom(e, p.data)
      case None => r == Some((keys, Complaint(from, ref, "malformed packet", stale)))
      case Some(addr) =>
        r == Some((keys, if addr in keys then KeyPacket(from, ref, keys[addr].public)
                         else Complaint(from, ref, "client non-existent", stale)))
    else r == Some((keys, Complaint(from, ref, "target not found", stale)))
  }

  lemma KeyReplyIs(ref: string, dest: string, pub: Point)
    ensures KeyReply(ref, dest, pub) == KeyPacket(dest, ref, pub)
  {
    assert map[KEY_REF := ref][KEY_NO_CRYPTO := "true"] == map["_ref" := ref, "_no_crypto" := "true"];
  }

  lemma AnswerIs(e: Env, keys: Keys, from: string, p: Received, stale: string)
    ensures var a := Answer(e, keys, from, p, stale);
            RepliesWith(e, keys, from, p, stale, if EndsServer(e, p) then None else Some((a.keys, a.out)))
  {
    var ref := Get(p.meta, "_ref");
    ErrOutIs(ref, from, "malformed packet", stale);
    ErrOutIs(ref, from, "client non-existent", stale);
    ErrOutIs(ref, from, "target not found", stale);
    KeyReplyIs(ref, from, PublicOf(e.group, e.scalar));
    assert map[KEY_REF := ref][KEY_RELAY_FROM := from] == map["_ref" := ref, "_relay_src" := from];
    var addr := AddrFrom(e, p.data);
    if addr.Some? && addr.value in keys {
      KeyReplyIs(ref, from, keys[addr.value].public);
    }
  }

  lemma ProcessAnswers(e: Env, keys: Keys, from: string, p: Received, pooled: PktState, stale: string)
    ensures var answer := Answer(e, keys, from, p, stale);
            Process(e, keys, from, p, pooled, stale) ==
            if EndsServer(e, p) then None else Some((answer.keys, [answer.out]))
  {
    var target := Get(p.meta, KEY_TARGET);
    TargetQueues(e, from, p);
    DistinctTargets();
    if EndsServer(e, p) {
    } else if target == TARGET_RELAY {
      ProcessSingle(e, keys, from, p, pooled, stale, RelayCallback(from, p));
      RelayReply(keys, from, p, pooled, stale);
    } else if target == TARGET_KEX_SERVER {
      ProcessSingle(e, keys, from, p, pooled, stale, KexServerCallback(e, from, p));
      KexServerReply(e, keys, from, p, pooled, stale);
    } else if target == TARGET_KEX_CLIENT {
      ProcessSingle(e, keys, from, p, pooled, stale, KexClientCallback(e, p));
      KexClientReply(e, keys, from, p, pooled, stale);
    } else {
      UnknownReply(e, keys, from, p, pooled, stale);
    }
  }

  /** One reply per datagram: processing enqueues exactly one packet for every decoded packet, the one its target calls
    for, whatever the pooled response packet held before, except that the program ends on a key without both
    coordinates. */
  lemma OneReply(e: Env, keys: Keys, from: string, p: Received, pooled: PktState, stale: string)
    ensures var r := Process(e, keys, from, p, pooled, stale);
            && (r.Some? ==> |r.value.1| == 1)
            && RepliesWith(e, keys, from, p, stale, if r.None? then None else Some((r.value.0, r.value.1[0])))
  {
    ProcessAnswers(e, keys, from, p, pooled, stale);
    AnswerIs(e, keys, from, p, stale);
  }

  /** A relayed packet goes to the address the sender named and every other reply to the sender; each bears the
    reference of the request if it could be decoded. */
  lemma ReplyAddressed(e: Env, keys: Keys, from: string, p: Option<Received>, stale: string)
    ensures var out := Handle(e, keys, from, p, stale).out;
            && out.dest == (if p.Some? && Get(p.value.meta, KEY_TARGET) == TARGET_RELAY
                            then Get(p.value.meta, KEY_RELAY_TO) else from)
            && Get(out.meta, KEY_REF) == if p.Some? then Ref(p.value) else ""
  {
    DistinctKeys();
  }

  lemma DistinctKeys()
    ensures KEY_REF != KEY_RELAY_FROM && KEY_REF != KEY_NO_CRYPTO && KEY_REF != KEY_STATUS && KEY_REF != KEY_MSG
    ensures KEY_NO_CRYPTO != KEY_STATUS && KEY_NO_CRYPTO != KEY_MSG && KEY_NO_CRYPTO != KEY_RELAY_FROM
    ensures KEY_REF != KEY_TARGET && KEY_REF != KEY_RELAY_TO && KEY_TARGET != KEY_RELAY_TO
  {
    assert |KEY_REF| == 4 && |KEY_RELAY_FROM| == 10 && |KEY_NO_CRYPTO| == 10 && |KEY_STATUS| == 5 && |KEY_MSG| == 4;
    assert |KEY_TARGET| == 4 && |KEY_RELAY_TO| == 10;
    assert KEY_REF[1] == 'r' && KEY_MSG[1] == 'm' && KEY_TARGET[1] == 't';
    assert KEY_NO_CRYPTO[1] == 'n' && KEY_RELAY_FROM[1] == 'r';
  }

  // ---------- outgoing ----------

  datatype Emission = Dropped | Written(keys: Keys, wire: Bytes) | Requeued(keys: Keys, out: Outgoing)

  function PipelineError(o: Outgoing, err: string, stale: string): Outgoing {
    ErrOut(Get(o.meta, KEY_REF), o.dest, "pipeline error: " + ("pipeline terminated: " + err), stale)
  }

  /** Marshalled, sealed and written; if sealing fails, an error packet to the same address is enqueued instead. */
  function Emit(a: Aead, keys: Keys, o: Outgoing, resolves: bool, nonce: Bytes, stale: string): Emission {
    if !resolves then Dropped
    else
      var r := EncryptTransport(a, keys, o.meta, o.dest, nonce, Json.Marshal(o.meta, o.text));
      match r.err
      case None => Written(r.keys, r.data)
      case Some(err) => Requeued(r.keys, PipelineError(o, err, stale))
  }

  // ---------- the error chain ----------

  /** The packet asks for sealing under a key that has been sent and has no AES length. */
  predicate Unsealable(keys: Keys, o: Outgoing) {
    !Exempt(o.meta) && o.dest in keys && keys[o.dest].keySent && !LegalKey(KeyBytes(keys[o.dest]))
  }

  /** A packet and the error packets that follow from it, one emission for each entry of `inputs` (a nonce and the text
    left in the next pooled packet), to an address that resolves. */
  datatype Chain = Chain(keys: Keys, writes: seq<Bytes>, pending: Option<Outgoing>)

  function ChainStep(a: Aead, c: Chain, input: (Bytes, string)): Chain {
    match c.pending
    case None => c
    case Some(o) =>
      match Emit(a, c.keys, o, true, input.0, input.1)
      case Written(keys, wire) => Chain(keys, c.writes + [wire], None)
      case Requeued(keys, err) => Chain(keys, c.writes, Some(err))
  }

  function ChainRun(a: Aead, c: Chain, inputs: seq<(Bytes, string)>): Chain {
    if inputs == [] then c else ChainStep(a, ChainRun(a, c, inputs[..|inputs| - 1]), inputs[|inputs| - 1])
  }

  lemma ErrOutNotExempt(ref: string, dest: string, msg: string, stale: string)
    ensures !Exempt(ErrOut(ref, dest, msg, stale).meta)
    ensures Get(ErrOut(ref, dest, msg, stale).meta, KEY_REF) == ref
  {
    DistinctKeys();
    assert Get(ErrOut(ref, dest, msg, stale).meta, KEY_NO_CRYPTO) == "";
  }

  lemma {:induction false} ChainStuck(a: Aead, keys: Keys, o: Outgoing, inputs: seq<(Bytes, string)>)
    requires Unsealable(keys, o)
    ensures var c := ChainRun(a, Chain(keys, [], Some(o)), inputs);
            && c.keys == keys && c.writes == []
            && c.pending.Some? && Unsealable(keys, c.pending.value)
            && c.pending.value.dest == o.dest && Get(c.pending.value.meta, KEY_REF) == Get(o.meta, KEY_REF)
  {
    if inputs != [] {
      var last := inputs[|inputs| - 1];
      ChainStuck(a, keys, o, inputs[..|inputs| - 1]);
      var p := ChainRun(a, Chain(keys, [], Some(o)), inputs[..|inputs| - 1]).pending.value;
      var err := "encryption error: " + KeySizeError(KeyBytes(keys[o.dest]));
      var msg := "pipeline error: " + ("pipeline terminated: " + err);
      ErrOutNotExempt(Get(p.meta, KEY_REF), p.dest, msg, last.1);
    }
  }

  lemma {:induction false} ChainDone(a: Aead, keys: Keys, o: Outgoing, inputs: seq<(Bytes, string)>)
    requires !Unsealable(keys, o) && inputs != []
    ensures var c := ChainRun(a, Chain(keys, [], Some(o)), inputs); |c.writes| == 1 && c.pending.None?
  {
    if |inputs| == 1 {
      assert ChainRun(a, Chain(keys, [], Some(o)), inputs[..0]) == Chain(keys, [], Some(o));
    } else {
      ChainDone(a, keys, o, inputs[..|inputs| - 1]);
    }
  }

  /** The outgoing error chain: a packet to a resolvable address is written exactly once and nothing is enqueued
    again, unless it is unsealable; then every step enqueues one more error packet with its reference, for ever, and
    nothing is written. */
  lemma ChainOutcome(a: Aead, keys: Keys, o: Outgoing, inputs: seq<(Bytes, string)>)
    requires inputs != []
    ensures var c := ChainRun(a, Chain(keys, [], Some(o)), inputs);
            if Unsealable(keys, o) then
              c.writes == [] && c.pending.Some? && Get(c.pending.value.meta, KEY_REF) == Get(o.meta, KEY_REF)
            else |c.writes| == 1 && c.pending.None?
  {
    if Unsealable(keys, o) {
      ChainStuck(a, keys, o, inputs);
    } else {
      ChainDone(a, keys, o, inputs);
    }
  }

  /** Which shared values can seal: those of exactly 16, 24 or 32 bytes; a shared value below 2^248 usually cannot. */
  lemma LegalShared(x: nat)
    ensures LegalKey(BigEndian(x)) <==>
              Pow256(15) <= x < Pow256(16) || Pow256(23) <= x < Pow256(24) || Pow256(31) <= x < Pow256(32)
  {
    BigEndianLength(x, 16);
    BigEndianLength(x, 24);
    BigEndianLength(x, 32);
  }

  // ---------- the key directory ----------

  /** What happens at the server, as far as its keys are concerned: a request is answered or a packet emitted. */
  datatype Happening =
    | Request(from: string, p: Received)
    | Emitted(o: Outgoing, nonce: Bytes)

  /** The program ends on the request. */
  predicate IsLast(e: Env, h: Happening) {
    h.Request? && EndsServer(e, h.p)
  }

  /** The table after it happened, if the program has not ended. */
  function KeysNext(e: Env, keys: Keys, h: Happening): Option<Keys> {
    if IsLast(e, h) then None
    else match h
      case Request(from, p) => Some(Answer(e, keys, from, p, "").keys)
      case Emitted(o, nonce) =>
        Some(EncryptTransport(e.aead, keys, o.meta, o.dest, nonce, Json.Marshal(o.meta, o.text)).keys)
  }

  /** The table after a history, if the program has not ended in it. */
  function KeysAfter(e: Env, keys: Keys, hs: seq<Happening>): Option<Keys> {
    if hs == [] then Some(keys)
    else
      var before := KeysAfter(e, keys, hs[..|hs| - 1]);
      if before.None? then None else KeysNext(e, before.value, hs[|hs| - 1])
  }

  /** The key a successful server exchange brings. */
  function Brings(e: Env, h: Happening, addr: string): Option<Point> {
    if && h.Request? && h.from == addr && Get(h.p.meta, KEY_TARGET) == TARGET_KEX_SERVER
       && KeyFrom(e, h.p.data).Complete?
    then Some(KeyFrom(e, h.p.data).pub) else None
  }

  /** The key of the most recent successful exchange from an address. */
  function LastKey(e: Env, hs: seq<Happening>, addr: string): Option<Point> {
    if hs == [] then None
    else if Brings(e, hs[|hs| - 1], addr).Some? then Brings(e, hs[|hs| - 1], addr)
    else LastKey(e, hs[..|hs| - 1], addr)
  }

  /** Only a successful server exchange changes the table, and only the sender's entry. */
  lemma AnswerKeys(e: Env, keys: Keys, from: string, p: Received, stale: string)
    ensures var brought := Brings(e, Request(from, p), from);
            Answer(e, keys, from, p, stale).keys ==
            if brought.None? then keys else Install(e.group, e.scalar, keys, from, brought.value, false)
  {
    DistinctTargets();
  }

  /** The table entry that a history of successful exchanges leaves. */
  predicate EntryIs(e: Env, keys: Keys, addr: string, key: Option<Point>) {
    && (addr in keys <==> key.Some?)
    && (addr in keys ==> keys[addr].public == key.value && keys[addr].shared == Shared(e.group, e.scalar, key.value))
  }

  predicate NoneLast(e: Env, hs: seq<Happening>) {
    forall i :: 0 <= i < |hs| ==> !IsLast(e, hs[i])
  }

  lemma NoneLastBefore(e: Env, hs: seq<Happening>)
    requires hs != []
    ensures NoneLast(e, hs) <==> NoneLast(e, hs[..|hs| - 1]) && !IsLast(e, hs[|hs| - 1])
  {
    assert forall i :: 0 <= i < |hs| - 1 ==> hs[..|hs| - 1][i] == hs[i];
  }

  lemma {:induction false} RunsOn(e: Env, keys: Keys, hs: seq<Happening>)
    ensures KeysAfter(e, keys, hs).Some? <==> NoneLast(e, hs)
  {
    if hs != [] {
      RunsOn(e, keys, hs[..|hs| - 1]);
      NoneLastBefore(e, hs);
    }
  }

  lemma {:induction false} TableIs(e: Env, hs: seq<Happening>, addr: string)
    ensures var keys := KeysAfter(e, map[], hs); keys.Some? ==> EntryIs(e, keys.value, addr, LastKey(e, hs, addr))
  {
    if hs != [] && KeysAfter(e, map[], hs).Some? {
      var before, last := hs[..|hs| - 1], hs[|hs| - 1];
      TableIs(e, before, addr);
      if last.Request? {
        AnswerKeys(e, KeysAfter(e, map[], before).value, last.from, last.p, "");
      }
    }
  }

  /** The table after any history: for each address the key of its latest successful exchange, and the value shared with
    it; unless the program has ended, which is exactly if a key without both coordinates was among the requests. */
  lemma {:induction false} TableIsHistory(e: Env, hs: seq<Happening>, addr: string)
    ensures KeysAfter(e, map[], hs).None? <==> exists i :: 0 <= i < |hs| && hs[i].Request? && EndsServer(e, hs[i].p)
    ensures var keys, key := KeysAfter(e, map[], hs), LastKey(e, hs, addr);
            keys.Some? ==>
              && (addr in keys.value <==> key.Some?)
              && (key.Some? ==>
                    && keys.value[addr].public == key.value
                    && keys.value[addr].shared == Mul(e.group, e.scalar, key.value).x)
  {
    RunsOn(e, map[], hs);
    TableIs(e, hs, addr);
    if i :| 0 <= i < |hs| && hs[i].Request? && EndsServer(e, hs[i].p) {
      assert IsLast(e, hs[i]);
    }
  }

  /** The key directory refines the history: a request for the key of `addr` to a server that runs is answered with
    the key of the most recent successful exchange from `addr`, and refused exactly when there was none. */
  lemma DirectoryAnswers(e: Env, hs: seq<Happening>, from: string, p: Received, addr: string, stale: string)
    requires KeysAfter(e, map[], hs).Some?
    requires Get(p.meta, KEY_TARGET) == TARGET_KEX_CLIENT && AddrFrom(e, p.data) == Some(addr)
    ensures var out := Answer(e, KeysAfter(e, map[], hs).value, from, p, stale).out;
            match LastKey(e, hs, addr)
            case Some(pub) => out == KeyReply(Ref(p), from, pub)
            case None => out == ErrOut(Ref(p), from, "packet pipeline error: " + "client non-existent", stale)
  {
    TableIsHistory(e, hs, addr);
    DistinctTargets();
  }
}
