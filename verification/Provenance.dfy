/** Where relayed packets come from. */
module Provenance {
  import opened Bytes
  import opened Cipher
  import opened PacketState
  import opened Relay
  import opened Sealing
  import opened Protocol
  import opened Runs
  import opened Histories
  import Base64
  import Curve
  import Json

  /** A datagram of `src` asks the server to relay the data in `text` to `dest` under the reference. */
  predicate Asks(w: World, d: Datagram, src: string, dest: string, ref: string, text: string) {
    && d.from.addr == src && d.to == w.server
    && Get(d.meta, KEY_TARGET) == TARGET_RELAY && Get(d.meta, KEY_RELAY_TO) == dest && Get(d.meta, KEY_REF) == ref
    && Base64.Decode(d.text).Some? && text == Base64.Encode(Base64.Decode(d.text).value)
  }

  /** A packet that names a source was asked for by that source. */
  ghost predicate Traced(w: World, net: set<Datagram>, dest: string, m: Meta, text: string) {
    KEY_RELAY_FROM in m ==> exists d :: d in net && Asks(w, d, m[KEY_RELAY_FROM], dest, Get(m, KEY_REF), text)
  }

  ghost predicate AllTraced(w: World, s: State) {
    && (forall o :: o in s.queue ==> Traced(w, s.net, o.dest, o.meta, o.text))
    && (forall d :: d in s.net && d.from.addr == w.server ==> Traced(w, s.net, d.to, d.meta, d.text))
  }

  lemma TracedStays(w: World, net: set<Datagram>, net': set<Datagram>, dest: string, m: Meta, text: string)
    requires Traced(w, net, dest, m, text) && net <= net'
    ensures Traced(w, net', dest, m, text)
  {
    if KEY_RELAY_FROM in m {
      var d :| d in net && Asks(w, d, m[KEY_RELAY_FROM], dest, Get(m, KEY_REF), text);
      assert d in net';
    }
  }

  lemma OnlyForwardsNameSources(ref: string, dest: string, msg: string, stale: string, pub: Curve.Point)
    ensures KEY_RELAY_FROM !in ErrOut(ref, dest, msg, stale).meta
    ensures KEY_RELAY_FROM !in KeyReply(ref, dest, pub).meta
  {
    DistinctKeys();
    assert |KEY_RELAY_FROM| == 10 && |KEY_STATUS| == 5 && |KEY_MSG| == 4;
  }

  /** The server's answer names a source only for a relay request, and then the sender. */
  lemma AnswerTraced(w: World, s: State, d: Datagram, p: Option<Received>, stale: string)
    requires d in s.net && d.to == w.server && (p == None || p == Content(d.meta, d.text))
    ensures var o := Handle(ServerEnv(w, s), s.serverKeys, d.from.addr, p, stale).out;
            Traced(w, s.net, o.dest, o.meta, o.text)
  {
    var from := d.from.addr;
    if p.None? {
      OnlyForwardsNameSources("", from, "malformed packet", stale, Curve.Point(0, 0));
    } else if Get(d.meta, KEY_TARGET) == TARGET_RELAY {
      DistinctKeys();
      var o := Forwarded(from, p.value);
      assert Asks(w, d, from, o.dest, Get(o.meta, KEY_REF), o.text);
    } else {
      PlainAnswer(ServerEnv(w, s), s.serverKeys, from, p.value, stale);
    }
  }

  lemma PlainAnswer(e: Env, keys: Keys, from: string, p: Received, stale: string)
    requires Get(p.meta, KEY_TARGET) != TARGET_RELAY
    ensures KEY_RELAY_FROM !in Answer(e, keys, from, p, stale).out.meta
  {
    forall msg
      ensures KEY_RELAY_FROM !in ErrOut(Ref(p), from, msg, stale).meta
    {
      OnlyForwardsNameSources(Ref(p), from, msg, stale, Curve.Point(0, 0));
    }
    forall pub
      ensures KEY_RELAY_FROM !in KeyReply(Ref(p), from, pub).meta
    {
      OnlyForwardsNameSources(Ref(p), from, "", stale, pub);
    }
  }

  /** A step that adds at most one genuine packet to the queue and, as the server, at most one genuine datagram. */
  lemma TracedKeeps(w: World, s: State, s': State)
    requires AllTraced(w, s) && s.net <= s'.net
    requires forall o :: o in s'.queue && o !in s.queue ==> Traced(w, s'.net, o.dest, o.meta, o.text)
    requires forall d :: d in s'.net && d !in s.net && d.from.addr == w.server ==>
               Traced(w, s'.net, d.to, d.meta, d.text)
    ensures AllTraced(w, s')
  {
    forall o | o in s'.queue
      ensures Traced(w, s'.net, o.dest, o.meta, o.text)
    {
      if o in s.queue {
        TracedStays(w, s.net, s'.net, o.dest, o.meta, o.text);
      }
    }
    forall d | d in s'.net && d.from.addr == w.server
      ensures Traced(w, s'.net, d.to, d.meta, d.text)
    {
      if d in s.net {
        TracedStays(w, s.net, s'.net, d.to, d.meta, d.text);
      }
    }
  }

  lemma AfterEmitTraced(w: World, s: State, o: Outgoing, nonce: Bytes, x: Emission)
    requires AllTraced(w, s) && o in s.queue && (x.Requeued? ==> KEY_RELAY_FROM !in x.out.meta)
    ensures AllTraced(w, AfterEmit(w, s, o, nonce, x))
  {
    var s' := AfterEmit(w, s, o, nonce, x);
    TracedStays(w, s.net, s'.net, o.dest, o.meta, o.text);
    TracedKeeps(w, s, s');
  }

  lemma EmitTraced(w: World, s: State, o: Outgoing, resolves: bool, nonce: Bytes, stale: string)
    requires AllTraced(w, s) && o in s.queue && |nonce| == NONCE_SIZE
    ensures AllTraced(w, AfterEmit(w, s, o, nonce, Emit(w.aead, s.serverKeys, o, resolves, nonce, stale)))
  {
    ReportsNameNoSource(w.aead, s.serverKeys, o, nonce, stale);
    AfterEmitTraced(w, s, o, nonce, Emit(w.aead, s.serverKeys, o, resolves, nonce, stale));
  }

  lemma ReportsNameNoSource(a: Aead, keys: Keys, o: Outgoing, nonce: Bytes, stale: string)
    ensures var x := Emit(a, keys, o, true, nonce, stale); x.Requeued? ==> KEY_RELAY_FROM !in x.out.meta
  {
    var r := EncryptTransport(a, keys, o.meta, o.dest, nonce, Json.Marshal(o.meta, o.text));
    var err := if r.err.Some? then r.err.value else "";
    var msg := "pipeline error: " + ("pipeline terminated: " + err);
    OnlyForwardsNameSources(Get(o.meta, KEY_REF), o.dest, msg, stale, Curve.Point(0, 0));
  }

  lemma AnswerStepTraced(w: World, s: State, t: Taken, stale: string)
    requires Inv(w, s) && AllTraced(w, s) && t in s.held
    ensures AllTraced(w, AfterAnswer(w, s, t, stale))
  {
    assert HeldOk(w, s, t);
    AnswerTraced(w, s, t.d, t.p, stale);
    AnswerAdds(w, s, t, stale);
    TracedKeeps(w, s, AfterAnswer(w, s, t, stale));
  }

  lemma StepTraced(w: World, s: State, step: Step)
    requires Sound(w) && Inv(w, s) && AllTraced(w, s)
    ensures AllTraced(w, Do(w, s, step))
  {
    if step.ServerAnswer? {
      if Enabled(w, s, step) {
        AnswerStepTraced(w, s, step.t, step.stale);
      }
    } else if step.ServerEmit? {
      if Enabled(w, s, step) {
        EmitTraced(w, s, step.o, step.resolves, step.nonce, step.stale);
      }
    } else {
      StepGrows(w, s, step);
      OthersSendNothing(w, s, step);
      TracedKeeps(w, s, Do(w, s, step));
    }
  }

  lemma {:induction false} RunTraced(w: World, steps: seq<Step>)
    requires Sound(w)
    ensures AllTraced(w, After(w, steps))
  {
    if steps != [] {
      RunTraced(w, steps[..|steps| - 1]);
      ReachableOk(w, steps[..|steps| - 1]);
      StepTraced(w, After(w, steps[..|steps| - 1]), steps[|steps| - 1]);
    }
  }

  /** The converse of delivery, in every run: a packet that reaches a client with a relay source was sent by that
    source, for that client, with that reference and that data. */
  lemma RelayedIsGenuine(w: World, steps: seq<Step>, d: Datagram)
    requires Sound(w) && d in After(w, steps).net && d.to != w.server && KEY_RELAY_FROM in d.meta
    ensures exists q ::
              q in After(w, steps).net && Asks(w, q, d.meta[KEY_RELAY_FROM], d.to, Get(d.meta, KEY_REF), d.text)
  {
    RunTraced(w, steps);
    ReachableOk(w, steps);
    assert DatagramOk(w, After(w, steps), d);
    assert Traced(w, After(w, steps).net, d.to, d.meta, d.text);
  }
}
