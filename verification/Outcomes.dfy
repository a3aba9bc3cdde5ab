/** What comes of every routine of the server, in every interleaving. */
module Outcomes {
  import opened Bytes
  import opened Curve
  import opened PacketState
  import opened Relay
  import opened Sealing
  import opened Lifecycle
  import Json

  // ---------- the server's keys over time ----------

  /** The key tables the server has had so far, in order: the one at moment `i` is `past[i]`. */
  predicate At(past: seq<Keys>, i: int, keys: Keys) {
    0 <= i < |past| && past[i] == keys
  }

  ghost predicate Seen(past: seq<Keys>, keys: Keys) {
    exists i :: At(past, i, keys)
  }

  /** One was the table at some moment, and the other at the same or a later one. */
  ghost predicate InOrder(past: seq<Keys>, first: Keys, second: Keys) {
    exists i, j :: i <= j && At(past, i, first) && At(past, j, second)
  }

  ghost predicate WhySeen(past: seq<Keys>, why: Why) {
    match why
    case Answering(v, at) => InOrder(past, v.keys, at)
    case Reporting(_, at, _) => Seen(past, at)
  }

  predicate Current(past: seq<Keys>, s: Server) {
    past != [] && past[|past| - 1] == s.keys
  }

  lemma SeenNow(past: seq<Keys>, s: Server)
    requires Current(past, s)
    ensures Seen(past, s.keys)
  {
    assert At(past, |past| - 1, s.keys);
  }

  lemma NowAfter(past: seq<Keys>, s: Server, keys: Keys)
    requires Current(past, s) && Seen(past, keys)
    ensures InOrder(past, keys, s.keys)
  {
    var i :| At(past, i, keys);
    assert At(past, |past| - 1, s.keys);
  }

  lemma SeenStays(past: seq<Keys>, more: Keys, keys: Keys)
    requires Seen(past, keys)
    ensures Seen(past + [more], keys)
  {
    var i :| At(past, i, keys);
    assert At(past + [more], i, keys);
  }

  lemma WhyStays(past: seq<Keys>, more: Keys, why: Why)
    requires WhySeen(past, why)
    ensures WhySeen(past + [more], why)
  {
    match why
    case Answering(v, at) =>
      var i, j :| i <= j && At(past, i, v.keys) && At(past, j, at);
      assert At(past + [more], i, v.keys) && At(past + [more], j, at);
    case Reporting(_, at, _) => SeenStays(past, more, at);
  }

  // ---------- what is right for a routine ----------

  /** The packet that is enqueued is the one the sequential server would enqueue: the answer to the datagram as it was
    opened and decoded, with the keys at the time of the callback; or the report of a failed emission. Its text stands
    for whatever its pooled packet held, if nothing was committed to it. */
  ghost predicate EnqueuedOk(e: Env, why: Why, o: Outgoing) {
    match why
    case Answering(v, at) =>
      CanVisit(v) && Answers(e, Got(e, v)) && o == Handle(e, at, v.from, Got(e, v), o.text).out
    case Reporting(o', at, nonce) => Emit(e.aead, at, o', true, nonce, o.text) == Requeued(at, o)
  }

  /** The program does not end on what was received. */
  predicate Answers(e: Env, p: Option<Received>) {
    p.Some? ==> !EndsServer(e, p.value)
  }

  predicate Fits(start: Start, why: Why) {
    match why
    case Answering(v, _) => start == FromNet(v.from, v.wire)
    case Reporting(o, _, _) => start == FromQueue(o)
  }

  ghost predicate OutcomeOk(e: Env, past: seq<Keys>, start: Start, done: Outcome) {
    match done
    case Enqueued(why, o) => Fits(start, why) && EnqueuedOk(e, why, o) && WhySeen(past, why)
    case Wrote(o, at, nonce, wire) => start == FromQueue(o) && WrittenAs(e, o, at, nonce, wire) && Seen(past, at)
    case Unresolved(o) => start == FromQueue(o)
  }

  ghost predicate WrittenAs(e: Env, o: Outgoing, at: Keys, nonce: Bytes, wire: Bytes) {
    var x := Emit(e.aead, at, o, true, nonce, "");
    x.Written? && x.wire == wire
  }

  /** The packet a routine decoded still holds what was decoded. */
  ghost predicate StillHolds(e: Env, heap: map<Id, PktState>, v: Visit, pkt: Id) {
    CanVisit(v) && pkt in heap && Got(e, v) == Some(Received(heap[pkt].meta, heap[pkt].buff))
  }

  ghost predicate PhaseOk(e: Env, past: seq<Keys>, heap: map<Id, PktState>, job: Job, p: Phase) {
    match p
    case Opening(from, wire) => job == Job(FromNet(from, wire), [])
    case Opened(from, wire, keys) =>
      job == Job(FromNet(from, wire), []) && CanOpen(keys, from, wire) && Seen(past, keys)
    case Failed(v, pkt) =>
      job == Job(FromNet(v.from, v.wire), []) && CanVisit(v) && Got(e, v) == None && Seen(past, v.keys)
    case Decoded(v, pkt) =>
      job == Job(FromNet(v.from, v.wire), []) && StillHolds(e, heap, v, pkt) && Seen(past, v.keys)
    case Responding(v, pkt, resp) =>
      && job == Job(FromNet(v.from, v.wire), []) && StillHolds(e, heap, v, pkt) && Seen(past, v.keys)
      && resp in heap && heap[resp] == Recycled(heap[resp], Get(heap[pkt].meta, KEY_REF), v.from)
    case Refusing(ref, dest, msg, back, why) =>
      && job.done == [] && Fits(job.start, why) && back != [] && WhySeen(past, why)
      && (forall stale :: EnqueuedOk(e, why, ErrOut(ref, dest, msg, stale)))
    case Offering(out, back, why) =>
      && job.done == [] && Fits(job.start, why) && back != [] && WhySeen(past, why)
      && out in heap && EnqueuedOk(e, why, ToSend(heap[out]))
    case Emitting(id, o) => job == Job(FromQueue(o), []) && id in heap && ToSend(heap[id]) == o
    case Writing(id, o, at, nonce, wire) =>
      job == Job(FromQueue(o), []) && WrittenAs(e, o, at, nonce, wire) && Seen(past, at)
    case Returning(back) => back != [] && Finished(e, past, job)
  }

  /** Exactly one thing came of the job, and it is right. */
  ghost predicate Finished(e: Env, past: seq<Keys>, job: Job) {
    |job.done| == 1 && OutcomeOk(e, past, job.start, job.done[0])
  }

  ghost predicate JobOk(e: Env, past: seq<Keys>, s: Server, r: nat) {
    && r in s.jobs
    && if r in s.routines then PhaseOk(e, past, s.heap, s.jobs[r], s.routines[r]) else Finished(e, past, s.jobs[r])
  }

  ghost predicate JobsOk(e: Env, past: seq<Keys>, s: Server) {
    && s.routines.Keys <= s.jobs.Keys
    && (forall r :: r in s.jobs ==> JobOk(e, past, s, r))
  }

  // ---------- what other routines do does not matter ----------

  /** Only packets of the routine `r`, pooled ones and new ones are touched. */
  ghost predicate Touches(s: Server, s': Server, r: nat) {
    forall id :: id in s.heap && id !in s.pool && !Owns(s, r, id) ==> id in s'.heap && s'.heap[id] == s.heap[id]
  }

  lemma PhaseStays(e: Env, past: seq<Keys>, heap: map<Id, PktState>, heap': map<Id, PktState>, job: Job, p: Phase)
    requires PhaseOk(e, past, heap, job, p)
    requires forall id :: id in Holds(p) ==> id in heap && id in heap' && heap'[id] == heap[id]
    ensures PhaseOk(e, past, heap', job, p)
  {
    match p
    case Decoded(v, pkt) => assert pkt in Holds(p);
    case Responding(v, pkt, resp) => assert pkt in Holds(p) && resp in Holds(p);
    case Offering(out, back, why) => assert out in Holds(p);
    case Emitting(id, o) => assert id in Holds(p);
    case _ =>
  }

  lemma OtherJobStays(e: Env, past: seq<Keys>, s: Server, s': Server, r: nat, x: nat)
    requires Places(s) && JobOk(e, past, s, x) && x != r && Touches(s, s', r)
    requires x in s'.jobs && s'.jobs[x] == s.jobs[x] && (x in s'.routines <==> x in s.routines)
    requires x in s.routines ==> s'.routines[x] == s.routines[x]
    ensures JobOk(e, past, s', x)
  {
    if x in s.routines {
      forall id | id in Holds(s.routines[x])
        ensures id in s.heap && id in s'.heap && s'.heap[id] == s.heap[id]
      {
        assert Owns(s, x, id);
      }
      PhaseStays(e, past, s.heap, s'.heap, s.jobs[x], s.routines[x]);
    }
  }

  lemma JobsKeep(e: Env, past: seq<Keys>, s: Server, s': Server, r: nat)
    requires Places(s) && JobsOk(e, past, s) && Touches(s, s', r)
    requires s'.routines - {r} == s.routines - {r} && s'.jobs - {r} == s.jobs - {r}
    requires JobOk(e, past, s', r)
    ensures JobsOk(e, past, s')
  {
    forall x | x in s'.routines
      ensures x in s'.jobs
    {
      if x != r {
        assert x in s'.routines - {r} && x in s.routines;
        assert x in s.jobs - {r};
      }
    }
    forall x | x in s'.jobs
      ensures JobOk(e, past, s', x)
    {
      if x != r {
        OthersOwn(s, s', r, x, 0);
        assert x in s'.jobs - {r} && (s'.jobs - {r})[x] == s'.jobs[x];
        assert (s.jobs - {r})[x] == s.jobs[x];
        OtherJobStays(e, past, s, s', r, x);
      }
    }
  }

  /** A routine moves on to a phase that is right. */
  lemma Advance(e: Env, past: seq<Keys>, s: Server, s': Server, r: nat, p: Phase, job: Job)
    requires Places(s) && JobsOk(e, past, s) && Touches(s, s', r)
    requires s'.routines == s.routines[r := p] && s'.jobs == s.jobs[r := job]
    requires PhaseOk(e, past, s'.heap, job, p)
    ensures JobsOk(e, past, s')
  {
    JobsKeep(e, past, s, s', r);
  }

  lemma AdvanceSame(e: Env, past: seq<Keys>, s: Server, s': Server, r: nat, p: Phase)
    requires Places(s) && JobsOk(e, past, s) && Touches(s, s', r) && r in s.jobs
    requires s'.routines == s.routines[r := p] && s'.jobs == s.jobs
    requires PhaseOk(e, past, s'.heap, s.jobs[r], p)
    ensures JobsOk(e, past, s')
  {
    assert s.jobs == s.jobs[r := s.jobs[r]];
    Advance(e, past, s, s', r, p, s.jobs[r]);
  }

  /** A routine that has done its one thing and has packets to put back. */
  lemma AdvanceDone(e: Env, past: seq<Keys>, s: Server, s': Server, r: nat, back: seq<Id>, done: Outcome)
    requires Places(s) && JobsOk(e, past, s) && Touches(s, s', r) && r in s.jobs && s.jobs[r].done == [] && back != []
    requires s'.routines == s.routines[r := Returning(back)]
    requires s'.jobs == s.jobs[r := s.jobs[r].(done := s.jobs[r].done + [done])]
    requires OutcomeOk(e, past, s.jobs[r].start, done)
    ensures JobsOk(e, past, s')
  {
    assert [] + [done] == [done];
    Advance(e, past, s, s', r, Returning(back), s.jobs[r].(done := [done]));
  }

  // ---------- each step ----------

  lemma DecodeOk(e: Env, past: seq<Keys>, s: Server, r: nat, id: Id, other: Decoded)
    requires Places(s) && JobsOk(e, past, s) && Enabled(s, Step.Decode(r, id, other))
    ensures JobsOk(e, past, DoDecode(e, s, r, s.routines[r], id, other))
  {
    assert JobOk(e, past, s, r);
    var s' := DoDecode(e, s, r, s.routines[r], id, other);
    AdvanceSame(e, past, s, s', r, s'.routines[r]);
  }

  lemma MakeErrorOk(e: Env, past: seq<Keys>, s: Server, r: nat, id: Id)
    requires Places(s) && JobsOk(e, past, s) && Current(past, s) && Enabled(s, MakeError(r, id))
    ensures JobsOk(e, past, DoMakeError(s, r, s.routines[r], id))
  {
    var p, s', stale := s.routines[r], DoMakeError(s, r, s.routines[r], id), Taken(s, id).committed;
    assert JobOk(e, past, s, r);
    if p.Failed? {
      NowAfter(past, s, p.v.keys);
      assert ToSend(s'.heap[id]) == ErrOut("", p.v.from, "malformed packet", stale);
    } else {
      assert ToSend(s'.heap[id]) == ErrOut(p.ref, p.dest, p.msg, stale);
    }
    AdvanceSame(e, past, s, s', r, s'.routines[r]);
  }

  lemma MakeResponseOk(e: Env, past: seq<Keys>, s: Server, r: nat, id: Id)
    requires Places(s) && JobsOk(e, past, s) && Enabled(s, MakeResponse(r, id))
    ensures JobsOk(e, past, DoMakeResponse(s, r, s.routines[r], id))
  {
    assert JobOk(e, past, s, r);
    assert Owns(s, r, s.routines[r].pkt);
    var s' := DoMakeResponse(s, r, s.routines[r], id);
    AdvanceSame(e, past, s, s', r, s'.routines[r]);
  }

  // ---------- the callbacks against the sequential answer ----------

  /** The packet in hand as the callbacks see it. */
  function InHand(s: Server, p: Phase): Received
    requires p.Responding? && p.pkt in s.heap
  {
    Received(s.heap[p.pkt].meta, s.heap[p.pkt].buff)
  }

  ghost predicate AtCallback(e: Env, past: seq<Keys>, s: Server, r: nat) {
    && Places(s) && JobsOk(e, past, s) && Current(past, s)
    && r in s.routines && r in s.jobs && s.routines[r].Responding?
    && PhaseOk(e, past, s.heap, s.jobs[r], s.routines[r])
  }

  lemma RefuseOk(e: Env, past: seq<Keys>, s: Server, r: nat, msg: string)
    requires AtCallback(e, past, s, r) && !EndsServer(e, InHand(s, s.routines[r]))
    requires var p := s.routines[r];
             forall stale ::
               Answer(e, s.keys, p.v.from, InHand(s, p), stale) == Refused(s.keys, p.v.from, InHand(s, p), msg, stale)
    ensures var p := s.routines[r]; JobsOk(e, past, Refuse(s, r, p, Ref(InHand(s, p)), msg))
  {
    var p := s.routines[r];
    var s' := Refuse(s, r, p, Ref(InHand(s, p)), msg);
    forall stale
      ensures EnqueuedOk(e, Answering(p.v, s.keys),
                         ErrOut(Ref(InHand(s, p)), p.v.from, "packet pipeline error: " + msg, stale))
    {
      assert Answer(e, s.keys, p.v.from, InHand(s, p), stale) == Refused(s.keys, p.v.from, InHand(s, p), msg, stale);
    }
    NowAfter(past, s, p.v.keys);
    AdvanceSame(e, past, s, s', r, s'.routines[r]);
  }

  lemma FullResponse(blank: PktState, ref: string, dest: string, pub: Point)
    requires blank == Recycled(blank, ref, dest)
    ensures var full := Apply(Apply(Apply(blank, Add(KEY_NO_CRYPTO, "true")), Op.Write(PrintKey(pub))), Close);
            ToSend(full) == KeyReply(ref, dest, pub)
  {
    assert [] + PrintKey(pub) == PrintKey(pub);
  }

  lemma FullForward(pooled: PktState, from: string, got: Received)
    ensures var fwd := Recycled(pooled, Ref(got), Get(got.meta, KEY_RELAY_TO));
            var full := Apply(Apply(Apply(fwd, Add(KEY_RELAY_FROM, from)), Op.Write(got.data)), Close);
            ToSend(full) == Forwarded(from, got)
  {
    assert [] + got.data == got.data;
  }

  /** A routine that offers the right packet. */
  lemma OfferOk(e: Env, past: seq<Keys>, s: Server, s': Server, r: nat, out: Id, back: seq<Id>, o: Outgoing)
    requires AtCallback(e, past, s, r) && !EndsServer(e, InHand(s, s.routines[r])) && Touches(s, s', r) && back != []
    requires s'.jobs == s.jobs
    requires s'.routines == s.routines[r := Offering(out, back, Answering(s.routines[r].v, s.keys))]
    requires out in s'.heap && ToSend(s'.heap[out]) == o
    requires Answer(e, s.keys, s.routines[r].v.from, InHand(s, s.routines[r]), o.text).out == o
    ensures JobsOk(e, past, s')
  {
    assert EnqueuedOk(e, Answering(s.routines[r].v, s.keys), o);
    NowAfter(past, s, s.routines[r].v.keys);
    AdvanceSame(e, past, s, s', r, s'.routines[r]);
  }

  lemma RespondOk(e: Env, past: seq<Keys>, s: Server, r: nat, keys: Keys, pub: Point)
    requires AtCallback(e, past, s, r) && !EndsServer(e, InHand(s, s.routines[r]))
    requires var p := s.routines[r]; var got := InHand(s, p);
             forall stale :: Answer(e, s.keys, p.v.from, got, stale).out == KeyReply(Ref(got), p.v.from, pub)
    ensures JobsOk(e, past, Respond(s, r, s.routines[r], keys, pub))
  {
    var p := s.routines[r];
    var s', got := Respond(s, r, p, keys, pub), InHand(s, p);
    FullResponse(s.heap[p.resp], Ref(got), p.v.from, pub);
    assert Owns(s, r, p.resp);
    OfferOk(e, past, s, s', r, p.resp, [p.pkt], KeyReply(Ref(got), p.v.from, pub));
  }

  lemma RelayOk(e: Env, past: seq<Keys>, s: Server, r: nat, id: Id)
    requires AtCallback(e, past, s, r) && CanTake(s, id)
    requires Get(InHand(s, s.routines[r]).meta, KEY_TARGET) == TARGET_RELAY
    ensures JobsOk(e, past, DoRelay(s, r, s.routines[r], InHand(s, s.routines[r]), id))
  {
    var p := s.routines[r];
    var got := InHand(s, p);
    FullForward(Taken(s, id), p.v.from, got);
    OfferOk(e, past, s, DoRelay(s, r, p, got, id), r, id, [p.resp, p.pkt], Forwarded(p.v.from, got));
  }

  lemma CallbackOk(e: Env, past: seq<Keys>, s: Server, r: nat, id: Id)
    requires Places(s) && JobsOk(e, past, s) && Current(past, s) && Enabled(s, Callback(r, id))
    ensures JobsOk(e, past, DoCallback(e, s, r, s.routines[r], id))
  {
    assert JobOk(e, past, s, r);
    var p := s.routines[r];
    var got := InHand(s, p);
    var target := Get(got.meta, KEY_TARGET);
    DistinctTargets();
    if target == TARGET_RELAY {
      RelayOk(e, past, s, r, id);
    } else if target == TARGET_KEX_SERVER {
      match KeyFrom(e, got.data)
      case NoKey => RefuseOk(e, past, s, r, "malformed packet");
      case Incomplete => AdvanceSame(e, past, s, s.(ended := true), r, p);
      case Complete(pub) =>
        var keys := Install(e.group, e.scalar, s.keys, p.v.from, pub, false);
        RespondOk(e, past, s, r, keys, PublicOf(e.group, e.scalar));
    } else if target == TARGET_KEX_CLIENT {
      match AddrFrom(e, got.data)
      case None => RefuseOk(e, past, s, r, "malformed packet");
      case Some(addr) =>
        if addr in s.keys {
          RespondOk(e, past, s, r, s.keys, s.keys[addr].public);
        } else {
          RefuseOk(e, past, s, r, "client non-existent");
        }
    } else {
      RefuseOk(e, past, s, r, "target not found");
    }
  }

  // ---------- handing over and emitting ----------

  lemma NewJob(e: Env, past: seq<Keys>, s: Server, s': Server, r: nat, p: Phase, job: Job)
    requires JobsOk(e, past, s) && r !in s.jobs && s'.heap == s.heap
    requires s'.routines == s.routines[r := p] && s'.jobs == s.jobs[r := job] && PhaseOk(e, past, s.heap, job, p)
    ensures JobsOk(e, past, s')
  {
    forall x | x in s'.jobs
      ensures JobOk(e, past, s', x)
    {
      if x != r {
        assert JobOk(e, past, s, x);
      }
    }
  }

  lemma HandOverOk(e: Env, past: seq<Keys>, s: Server, r: nat, r': nat)
    requires Places(s) && JobsOk(e, past, s) && Enabled(s, HandOver(r, r'))
    ensures JobsOk(e, past, DoHandOver(s, r, r', s.routines[r]))
  {
    var p := s.routines[r];
    var o := ToSend(s.heap[p.out]);
    assert JobOk(e, past, s, r);
    var s1 := Goto(Record(s, r, Enqueued(p.why, o)), r, Returning(p.back));
    AdvanceDone(e, past, s, s1, r, p.back, Enqueued(p.why, o));
    NewJob(e, past, s1, DoHandOver(s, r, r', p), r', Emitting(p.out, o), Job(FromQueue(o), []));
  }

  lemma SealOk(e: Env, past: seq<Keys>, s: Server, r: nat, resolves: bool, nonce: Bytes)
    requires Places(s) && JobsOk(e, past, s) && Current(past, s) && Enabled(s, Seal(r, resolves, nonce))
    ensures JobsOk(e, past, DoSeal(e, s, r, s.routines[r], resolves, nonce))
  {
    var p, s' := s.routines[r], DoSeal(e, s, r, s.routines[r], resolves, nonce);
    assert JobOk(e, past, s, r);
    if resolves {
      SealPhase(e, past, s, r, nonce);
    } else {
      AdvanceDone(e, past, s, s', r, [p.id], Unresolved(p.o));
    }
  }

  lemma ReportOk(e: Env, keys: Keys, o: Outgoing, nonce: Bytes, err: string, stale: string)
    requires EncryptTransport(e.aead, keys, o.meta, o.dest, nonce, Json.Marshal(o.meta, o.text)).err == Some(err)
    ensures EnqueuedOk(e, Reporting(o, keys, nonce), PipelineError(o, err, stale))
  {
  }

  lemma SealedOk(e: Env, keys: Keys, o: Outgoing, nonce: Bytes)
    ensures var x := EncryptTransport(e.aead, keys, o.meta, o.dest, nonce, Json.Marshal(o.meta, o.text));
            x.err.None? ==> WrittenAs(e, o, keys, nonce, x.data)
  {
  }

  /** The phase that sealing leads to is right. */
  lemma SealedPhase(e: Env, past: seq<Keys>, s: Server, r: nat, nonce: Bytes)
    requires JobOk(e, past, s, r) && Current(past, s) && Enabled(s, Seal(r, true, nonce))
    ensures var s' := DoSeal(e, s, r, s.routines[r], true, nonce);
            r in s'.routines && PhaseOk(e, past, s'.heap, s.jobs[r], s'.routines[r])
  {
    var o := s.routines[r].o;
    var x := EncryptTransport(e.aead, s.keys, o.meta, o.dest, nonce, Json.Marshal(o.meta, o.text));
    SeenNow(past, s);
    SealedOk(e, s.keys, o, nonce);
    if x.err.Some? {
      forall stale
        ensures EnqueuedOk(e, Reporting(o, s.keys, nonce), PipelineError(o, x.err.value, stale))
      {
        ReportOk(e, s.keys, o, nonce, x.err.value, stale);
      }
    }
  }

  lemma SealLeaves(e: Env, s: Server, r: nat, nonce: Bytes)
    requires Enabled(s, Seal(r, true, nonce))
    ensures var s' := DoSeal(e, s, r, s.routines[r], true, nonce);
            s'.heap == s.heap && s'.jobs == s.jobs && r in s'.routines && s'.routines == s.routines[r := s'.routines[r]]
  {
  }

  lemma SealPhase(e: Env, past: seq<Keys>, s: Server, r: nat, nonce: Bytes)
    requires Places(s) && JobsOk(e, past, s) && Current(past, s) && Enabled(s, Seal(r, true, nonce))
    ensures JobsOk(e, past, DoSeal(e, s, r, s.routines[r], true, nonce))
  {
    assert JobOk(e, past, s, r);
    var s' := DoSeal(e, s, r, s.routines[r], true, nonce);
    SealedPhase(e, past, s, r, nonce);
    SealLeaves(e, s, r, nonce);
    AdvanceSame(e, past, s, s', r, s'.routines[r]);
  }

  lemma WriteOk(e: Env, past: seq<Keys>, s: Server, r: nat)
    requires Places(s) && JobsOk(e, past, s) && Enabled(s, Step.Write(r))
    ensures JobsOk(e, past, DoWrite(s, r, s.routines[r]))
  {
    var p := s.routines[r];
    assert JobOk(e, past, s, r);
    AdvanceDone(e, past, s, DoWrite(s, r, p), r, [p.id], Wrote(p.o, p.at, p.nonce, p.wire));
  }

  lemma PutBackOk(e: Env, past: seq<Keys>, s: Server, r: nat)
    requires Places(s) && JobsOk(e, past, s) && Enabled(s, PutBack(r))
    ensures JobsOk(e, past, DoPutBack(s, r, s.routines[r]))
  {
    assert JobOk(e, past, s, r);
    JobsKeep(e, past, s, DoPutBack(s, r, s.routines[r]), r);
  }

  // ---------- every interleaving ----------

  lemma ArriveOk(e: Env, past: seq<Keys>, s: Server, r: nat, from: string, wire: Bytes)
    requires Places(s) && JobsOk(e, past, s) && Enabled(s, Arrive(r, from, wire))
    ensures Places(Do(e, s, Arrive(r, from, wire))) && JobsOk(e, past, Do(e, s, Arrive(r, from, wire)))
  {
    var s' := Do(e, s, Arrive(r, from, wire));
    StayKeeps(s, s', r, Opening(from, wire));
    Advance(e, past, s, s', r, Opening(from, wire), Job(FromNet(from, wire), []));
  }

  lemma OpenOk(e: Env, past: seq<Keys>, s: Server, r: nat)
    requires Places(s) && JobsOk(e, past, s) && Current(past, s) && Enabled(s, Open(r))
    ensures Places(Do(e, s, Open(r))) && JobsOk(e, past, Do(e, s, Open(r)))
  {
    var s' := Do(e, s, Open(r));
    assert JobOk(e, past, s, r);
    SeenNow(past, s);
    StayKeeps(s, s', r, s'.routines[r]);
    AdvanceSame(e, past, s, s', r, s'.routines[r]);
  }

  lemma SealPlaces(e: Env, s: Server, r: nat, resolves: bool, nonce: Bytes)
    requires Places(s) && Enabled(s, Seal(r, resolves, nonce))
    ensures Places(DoSeal(e, s, r, s.routines[r], resolves, nonce))
  {
    var s' := DoSeal(e, s, r, s.routines[r], resolves, nonce);
    assert Holds(s'.routines[r]) == [s.routines[r].id];
    StayKeeps(s, s', r, s'.routines[r]);
  }

  lemma WritePlaces(s: Server, r: nat)
    requires Places(s) && Enabled(s, Step.Write(r))
    ensures Places(DoWrite(s, r, s.routines[r]))
  {
    StayKeeps(s, DoWrite(s, r, s.routines[r]), r, Returning([s.routines[r].id]));
  }

  lemma IncomingOk(e: Env, past: seq<Keys>, s: Server, step: Step)
    requires Places(s) && JobsOk(e, past, s) && Current(past, s) && Enabled(s, step)
    requires step.Decode? || step.MakeError? || step.MakeResponse? || step.Callback?
    ensures Places(Do(e, s, step)) && JobsOk(e, past, Do(e, s, step))
  {
    match step
    case Decode(r, id, other) =>
      DecodePlaces(e, s, r, id, other);
      DecodeOk(e, past, s, r, id, other);
    case MakeError(r, id) =>
      MakeErrorPlaces(s, r, id);
      MakeErrorOk(e, past, s, r, id);
    case MakeResponse(r, id) =>
      MakeResponsePlaces(s, r, id);
      MakeResponseOk(e, past, s, r, id);
    case Callback(r, id) =>
      CallbackPlaces(e, s, r, id);
      CallbackOk(e, past, s, r, id);
  }

  lemma OutgoingOk(e: Env, past: seq<Keys>, s: Server, step: Step)
    requires Places(s) && JobsOk(e, past, s) && Current(past, s) && Enabled(s, step)
    requires step.HandOver? || step.Seal? || step.Write? || step.PutBack?
    ensures Places(Do(e, s, step)) && JobsOk(e, past, Do(e, s, step))
  {
    match step
    case HandOver(r, r') =>
      HandOverPlaces(s, Do(e, s, step), r, r', ToSend(s.heap[s.routines[r].out]));
      HandOverOk(e, past, s, r, r');
    case Seal(r, resolves, nonce) =>
      SealPlaces(e, s, r, resolves, nonce);
      SealOk(e, past, s, r, resolves, nonce);
    case Write(r) =>
      WritePlaces(s, r);
      WriteOk(e, past, s, r);
    case PutBack(r) =>
      PutBackPlaces(s, r);
      PutBackOk(e, past, s, r);
  }

  lemma StepOk(e: Env, past: seq<Keys>, s: Server, step: Step)
    requires Places(s) && JobsOk(e, past, s) && Current(past, s)
    ensures Places(Do(e, s, step)) && JobsOk(e, past, Do(e, s, step))
  {
    if Enabled(s, step) {
      match step
      case Arrive(r, from, wire) => ArriveOk(e, past, s, r, from, wire);
      case Open(r) => OpenOk(e, past, s, r);
      case HandOver(_, _) => OutgoingOk(e, past, s, step);
      case Seal(_, _, _) => OutgoingOk(e, past, s, step);
      case Write(_) => OutgoingOk(e, past, s, step);
      case PutBack(_) => OutgoingOk(e, past, s, step);
      case _ => IncomingOk(e, past, s, step);
    }
  }

  lemma PhaseGrows(e: Env, past: seq<Keys>, more: Keys, heap: map<Id, PktState>, job: Job, p: Phase)
    requires PhaseOk(e, past, heap, job, p)
    ensures PhaseOk(e, past + [more], heap, job, p)
  {
    match p
    case Opened(_, _, keys) => SeenStays(past, more, keys);
    case Failed(v, _) => SeenStays(past, more, v.keys);
    case Decoded(v, _) => SeenStays(past, more, v.keys);
    case Responding(v, _, _) => SeenStays(past, more, v.keys);
    case Refusing(_, _, _, _, why) => WhyStays(past, more, why);
    case Offering(_, _, why) => WhyStays(past, more, why);
    case Writing(_, _, at, _, _) => SeenStays(past, more, at);
    case Returning(_) => FinishedGrows(e, past, more, job);
    case _ =>
  }

  lemma FinishedGrows(e: Env, past: seq<Keys>, more: Keys, job: Job)
    requires Finished(e, past, job)
    ensures Finished(e, past + [more], job)
  {
    match job.done[0]
    case Enqueued(why, _) => WhyStays(past, more, why);
    case Wrote(_, at, _, _) => SeenStays(past, more, at);
    case Unresolved(_) =>
  }

  lemma JobsGrow(e: Env, past: seq<Keys>, more: Keys, s: Server)
    requires JobsOk(e, past, s)
    ensures JobsOk(e, past + [more], s)
  {
    forall r | r in s.jobs
      ensures JobOk(e, past + [more], s, r)
    {
      assert JobOk(e, past, s, r);
      if r in s.routines {
        PhaseGrows(e, past, more, s.heap, s.jobs[r], s.routines[r]);
      } else {
        FinishedGrows(e, past, more, s.jobs[r]);
      }
    }
  }

  /** The key tables of a run, from its first state to its last. */
  function Past(e: Env, s: Server, steps: seq<Step>): seq<Keys> {
    if steps == [] then [s.keys] else Past(e, s, steps[..|steps| - 1]) + [Exec(e, s, steps).keys]
  }

  lemma {:induction false} PastIs(e: Env, s: Server, steps: seq<Step>, i: nat)
    requires i <= |steps|
    ensures |Past(e, s, steps)| == |steps| + 1 && Past(e, s, steps)[i] == Exec(e, s, steps[..i]).keys
  {
    if steps != [] {
      var before := steps[..|steps| - 1];
      PastIs(e, s, before, if i < |steps| then i else 0);
      if i < |steps| {
        assert before[..i] == steps[..i];
      } else {
        assert steps[..i] == steps;
      }
    }
  }

  lemma {:induction false} RunOk(e: Env, s: Server, steps: seq<Step>)
    requires Idle(s)
    ensures var s', past := Exec(e, s, steps), Past(e, s, steps);
            Places(s') && JobsOk(e, past, s') && Current(past, s')
  {
    if steps != [] {
      var before := steps[..|steps| - 1];
      RunOk(e, s, before);
      StepOk(e, Past(e, s, before), Exec(e, s, before), steps[|steps| - 1]);
      JobsGrow(e, Past(e, s, before), Exec(e, s, steps).keys, Exec(e, s, steps));
    }
  }

  // ---------- what every interleaving guarantees ----------

  /** Pool conservation, in every interleaving of any number of routines: each packet is in the pool or held by
    exactly one routine, once; what is put back was not in the pool; and when no routine is left, every packet is
    back. */
  lemma PoolConservation(e: Env, s: Server, steps: seq<Step>)
    requires Idle(s)
    ensures var s' := Exec(e, s, steps);
            && Places(s') && s.heap.Keys <= s'.heap.Keys
            && (s'.routines == map[] ==> s'.pool == s'.heap.Keys)
            && (forall r :: Enabled(s', PutBack(r)) ==> s'.routines[r].back[0] !in s'.pool)
  {
    var s' := Exec(e, s, steps);
    RunOk(e, s, steps);
    HeapGrows(e, s, steps);
    forall r | Enabled(s', PutBack(r))
      ensures s'.routines[r].back[0] !in s'.pool
    {
      PutBackPlaces(s', r);
    }
  }

  lemma StepHeapGrows(e: Env, s: Server, step: Step)
    ensures s.heap.Keys <= Do(e, s, step).heap.Keys
  {
  }

  lemma {:induction false} HeapGrows(e: Env, s: Server, steps: seq<Step>)
    ensures s.heap.Keys <= Exec(e, s, steps).heap.Keys
  {
    if steps != [] {
      HeapGrows(e, s, steps[..|steps| - 1]);
      StepHeapGrows(e, Exec(e, s, steps[..|steps| - 1]), steps[|steps| - 1]);
    }
  }

  /** The server's key table after the first `i` steps. */
  function KeysAt(e: Env, s: Server, steps: seq<Step>, i: nat): Keys
    requires i <= |steps|
  {
    Exec(e, s, steps[..i]).keys
  }

  /** The moment of the run at which the table was the recorded one. */
  lemma Moment(e: Env, s: Server, steps: seq<Step>, i: int, keys: Keys)
    requires At(Past(e, s, steps), i, keys)
    ensures 0 <= i <= |steps| && KeysAt(e, s, steps, i) == keys
  {
    PastIs(e, s, steps, 0);
    PastIs(e, s, steps, i);
  }

  /** One reply per datagram, in every interleaving: a routine that processed a datagram has enqueued exactly one
    packet, the one the sequential server answers with, to the sender or to the relay address it named, with the
    reference of the request. The datagram was opened with the keys that the server had after some number `i` of steps
    of the run, and answered with those it had after `j` steps, no earlier. */
  lemma OneReplyPerDatagram(e: Env, s: Server, steps: seq<Step>, r: nat) returns (i: nat, j: nat)
    requires Idle(s)
    requires var s' := Exec(e, s, steps); r in s'.jobs && r !in s'.routines && s'.jobs[r].start.FromNet?
    ensures i <= j <= |steps|
    ensures var job := Exec(e, s, steps).jobs[r];
            && |job.done| == 1 && job.done[0].Enqueued? && job.done[0].why.Answering?
            && var Answering(v, at) := job.done[0].why; var o := job.done[0].o;
               && v.keys == KeysAt(e, s, steps, i) && at == KeysAt(e, s, steps, j)
               && v.from == job.start.from && v.wire == job.start.wire && CanVisit(v)
               && (Got(e, v).Some? ==> !EndsServer(e, Got(e, v).value))
               && o == Handle(e, at, v.from, Got(e, v), o.text).out
               && o.dest == (if Got(e, v).Some? && Get(Got(e, v).value.meta, KEY_TARGET) == TARGET_RELAY
                             then Get(Got(e, v).value.meta, KEY_RELAY_TO) else v.from)
               && Get(o.meta, KEY_REF) == if Got(e, v).Some? then Ref(Got(e, v).value) else ""
  {
    RunOk(e, s, steps);
    var s', past := Exec(e, s, steps), Past(e, s, steps);
    assert JobOk(e, past, s', r);
    var Answering(v, at) := s'.jobs[r].done[0].why;
    ReplyAddressed(e, at, v.from, Got(e, v), s'.jobs[r].done[0].o.text);
    i, j :| i <= j && At(past, i, v.keys) && At(past, j, at);
    Moment(e, s, steps, i, v.keys);
    Moment(e, s, steps, j, at);
  }

  // ---------- when the program ends ----------

  /** The step runs the callback of an exchange request with a key without both coordinates. */
  predicate IsFatal(e: Env, s: Server, step: Step) {
    step.Callback? && Enabled(s, step) && EndsServer(e, InHand(s, s.routines[step.r]))
  }

  lemma StepEnds(e: Env, s: Server, step: Step)
    ensures Do(e, s, step).ended <==> s.ended || IsFatal(e, s, step)
  {
    DistinctTargets();
  }

  predicate FatalAt(e: Env, s: Server, steps: seq<Step>, i: int) {
    0 <= i < |steps| && IsFatal(e, Exec(e, s, steps[..i]), steps[i])
  }

  lemma FatalBefore(e: Env, s: Server, steps: seq<Step>, i: int)
    requires 0 <= i < |steps| - 1
    ensures FatalAt(e, s, steps[..|steps| - 1], i) <==> FatalAt(e, s, steps, i)
  {
    var before := steps[..|steps| - 1];
    assert before[..i] == steps[..i] && before[i] == steps[i];
  }

  lemma ExecEnds(e: Env, s: Server, steps: seq<Step>)
    requires steps != []
    ensures Exec(e, s, steps).ended <==>
              Exec(e, s, steps[..|steps| - 1]).ended || FatalAt(e, s, steps, |steps| - 1)
  {
    StepEnds(e, Exec(e, s, steps[..|steps| - 1]), steps[|steps| - 1]);
  }

  predicate SomeFatal(e: Env, s: Server, steps: seq<Step>) {
    exists i :: 0 <= i < |steps| && FatalAt(e, s, steps, i)
  }

  lemma OneMoreFatal(e: Env, s: Server, steps: seq<Step>)
    requires steps != []
    ensures SomeFatal(e, s, steps) <==>
              SomeFatal(e, s, steps[..|steps| - 1]) || FatalAt(e, s, steps, |steps| - 1)
  {
    var before := steps[..|steps| - 1];
    if i :| 0 <= i < |before| && FatalAt(e, s, before, i) {
      FatalBefore(e, s, steps, i);
    }
    if i :| 0 <= i < |before| && FatalAt(e, s, steps, i) {
      FatalBefore(e, s, steps, i);
    }
  }

  lemma {:induction false} RunEnds(e: Env, s: Server, steps: seq<Step>)
    requires !s.ended
    ensures Exec(e, s, steps).ended <==> SomeFatal(e, s, steps)
  {
    if steps != [] {
      RunEnds(e, s, steps[..|steps| - 1]);
      ExecEnds(e, s, steps);
      OneMoreFatal(e, s, steps);
    }
  }

  /** When the server's program ends, in every interleaving: exactly if some step runs the callback of a routine on
    what it received, as it was opened and decoded, and that is an exchange request with a key without both
    coordinates. */
  lemma EndsExactly(e: Env, s: Server, steps: seq<Step>)
    requires Idle(s)
    ensures Exec(e, s, steps).ended <==>
              exists i :: 0 <= i < |steps| && EndsOn(e, Exec(e, s, steps[..i]), steps[i])
  {
    RunEnds(e, s, steps);
    forall i | 0 <= i < |steps|
      ensures EndsOn(e, Exec(e, s, steps[..i]), steps[i]) <==> FatalAt(e, s, steps, i)
    {
      RunOk(e, s, steps[..i]);
      HandIsReceived(e, Past(e, s, steps[..i]), Exec(e, s, steps[..i]), steps[i]);
    }
  }

  /** The routine runs its callback on a datagram that decodes to such a request. */
  predicate EndsOn(e: Env, s: Server, step: Step) {
    && step.Callback? && Enabled(s, step)
    && var v := s.routines[step.r].v;
       CanVisit(v) && Got(e, v).Some? && EndsServer(e, Got(e, v).value)
  }

  lemma HandIsReceived(e: Env, past: seq<Keys>, s: Server, step: Step)
    requires JobsOk(e, past, s)
    ensures EndsOn(e, s, step) <==> IsFatal(e, s, step)
  {
    if step.Callback? && Enabled(s, step) {
      assert JobOk(e, past, s, step.r);
    }
  }

  // ---------- the key table of every interleaving ----------

  /** What a step means for the keys: a callback runs, or a packet whose address resolves is sealed. */
  function Means(s: Server, step: Step): Option<Happening> {
    if step.Callback? && Enabled(s, step) then
      Some(Request(s.routines[step.r].v.from, InHand(s, s.routines[step.r])))
    else if step.Seal? && Enabled(s, step) && step.resolves then
      Some(Emitted(ToSend(s.heap[s.routines[step.r].id]), step.nonce))
    else None
  }

  function Happened(e: Env, s: Server, steps: seq<Step>): seq<Happening> {
    if steps == [] then []
    else
      Happened(e, s, steps[..|steps| - 1]) + Listed(Means(Exec(e, s, steps[..|steps| - 1]), steps[|steps| - 1]))
  }

  function Listed(m: Option<Happening>): seq<Happening> {
    if m.Some? then [m.value] else []
  }

  lemma CallbackKeys(e: Env, s: Server, r: nat, id: Id)
    requires Enabled(s, Callback(r, id))
    ensures var s', got := DoCallback(e, s, r, s.routines[r], id), InHand(s, s.routines[r]);
            if EndsServer(e, got) then s'.ended
            else !s'.ended && s'.keys == Answer(e, s.keys, s.routines[r].v.from, got, "").keys
  {
    DistinctTargets();
  }

  lemma SealKeys(e: Env, s: Server, r: nat, resolves: bool, nonce: Bytes)
    requires Enabled(s, Seal(r, resolves, nonce))
    ensures var s', o := DoSeal(e, s, r, s.routines[r], resolves, nonce), ToSend(s.heap[s.routines[r].id]);
            && !s'.ended
            && s'.keys ==
               if resolves
               then EncryptTransport(e.aead, s.keys, o.meta, o.dest, nonce, Json.Marshal(o.meta, o.text)).keys
               else s.keys
  {
  }

  lemma StepKeys(e: Env, s: Server, step: Step)
    requires !s.ended
    ensures var s', m := Do(e, s, step), Means(s, step);
            match m
            case None => s'.keys == s.keys && !s'.ended
            case Some(h) =>
              var k := KeysNext(e, s.keys, h);
              (s'.ended <==> k.None?) && (k.Some? ==> s'.keys == k.value)
  {
    if Enabled(s, step) {
      if step.Callback? {
        CallbackKeys(e, s, step.r, step.id);
      } else if step.Seal? {
        SealKeys(e, s, step.r, step.resolves, step.nonce);
      }
    }
  }

  /** The program has ended exactly if there is no table any more, and otherwise the table is this one. */
  predicate Agrees(s: Server, k: Option<Keys>) {
    (s.ended <==> k.None?) && (k.Some? ==> s.keys == k.value)
  }

  lemma StepAgrees(e: Env, s: Server, step: Step, keys: Keys, hs: seq<Happening>)
    requires Agrees(s, KeysAfter(e, keys, hs))
    ensures Agrees(Do(e, s, step), KeysAfter(e, keys, hs + Listed(Means(s, step))))
  {
    var m := Means(s, step);
    if s.ended || m.None? {
      assert hs + Listed(m) == hs;
    } else {
      assert (hs + Listed(m))[..|hs|] == hs;
    }
    if !s.ended {
      StepKeys(e, s, step);
    }
  }

  /** The key table of every interleaving is that of the sequential server after the callbacks and the sealings of the
    run, in the order of the locks; and the program has ended exactly if it has there. */
  lemma {:induction false} KeysRefine(e: Env, s: Server, steps: seq<Step>)
    requires !s.ended
    ensures Agrees(Exec(e, s, steps), KeysAfter(e, s.keys, Happened(e, s, steps)))
  {
    if steps != [] {
      var before := steps[..|steps| - 1];
      KeysRefine(e, s, before);
      StepAgrees(e, Exec(e, s, before), steps[|steps| - 1], s.keys, Happened(e, s, before));
    }
  }

  /** So in every interleaving that starts without keys, and as long as the program runs, the entry of an address is the
    point in the latest exchange request from it whose callback has run, with the value shared with it; and there is one
    exactly if there was such a request. */
  lemma TableInRun(e: Env, s: Server, steps: seq<Step>, addr: string)
    requires Idle(s) && s.keys == map[] && !Exec(e, s, steps).ended
    ensures var keys, key := Exec(e, s, steps).keys, LastKey(e, Happened(e, s, steps), addr);
            && (addr in keys <==> key.Some?)
            && (key.Some? ==>
                  keys[addr].public == key.value && keys[addr].shared == Mul(e.group, e.scalar, key.value).x)
  {
    KeysRefine(e, s, steps);
    TableIsHistory(e, Happened(e, s, steps), addr);
  }

  // ---------- what the sealing steps said ----------

  /** The sealing steps of a run: by which routine, whether the address resolved, and the nonce. */
  function Sealings(e: Env, s: Server, steps: seq<Step>): set<(nat, bool, Bytes)> {
    if steps == [] then {}
    else Sealings(e, s, steps[..|steps| - 1]) + SealingOf(Exec(e, s, steps[..|steps| - 1]), steps[|steps| - 1])
  }

  function SealingOf(s: Server, step: Step): set<(nat, bool, Bytes)> {
    if step.Seal? && Enabled(s, step) then {(step.r, step.resolves, step.nonce)} else {}
  }

  predicate WhySealed(q: set<(nat, bool, Bytes)>, r: nat, why: Why) {
    why.Reporting? ==> (r, true, why.nonce) in q
  }

  predicate PhaseSealed(q: set<(nat, bool, Bytes)>, r: nat, p: Phase) {
    match p
    case Writing(_, _, _, nonce, _) => (r, true, nonce) in q
    case Refusing(_, _, _, _, why) => WhySealed(q, r, why)
    case Offering(_, _, why) => WhySealed(q, r, why)
    case _ => true
  }

  /** What was written or reported on had an address that resolved; what was not, had none. */
  predicate DoneSealed(q: set<(nat, bool, Bytes)>, r: nat, done: Outcome) {
    match done
    case Wrote(_, _, nonce, _) => (r, true, nonce) in q
    case Enqueued(why, _) => WhySealed(q, r, why)
    case Unresolved(_) => exists x :: x in q && x.0 == r && !x.1
  }

  ghost predicate AllSealed(q: set<(nat, bool, Bytes)>, s: Server) {
    && (forall r :: r in s.routines ==> PhaseSealed(q, r, s.routines[r]))
    && (forall r, k :: r in s.jobs && 0 <= k < |s.jobs[r].done| ==> DoneSealed(q, r, s.jobs[r].done[k]))
  }

  /** A step of routine `r` that leaves the others alone and adds at most one outcome. */
  lemma SealedKeeps(q: set<(nat, bool, Bytes)>, q': set<(nat, bool, Bytes)>, s: Server, s': Server, r: nat)
    requires AllSealed(q, s) && q <= q'
    requires forall x :: x in s'.routines && x != r ==> PhaseSealed(q', x, s'.routines[x])
    requires r in s'.routines ==> PhaseSealed(q', r, s'.routines[r])
    requires forall x :: x in s'.jobs && x != r ==> s'.jobs[x].done == if x in s.jobs then s.jobs[x].done else []
    requires r in s'.jobs ==>
               var done := if r in s.jobs then s.jobs[r].done else [];
               && done <= s'.jobs[r].done
               && forall k :: |done| <= k < |s'.jobs[r].done| ==> DoneSealed(q', r, s'.jobs[r].done[k])
    ensures AllSealed(q', s')
  {
    forall x, k | x in s'.jobs && 0 <= k < |s'.jobs[x].done|
      ensures DoneSealed(q', x, s'.jobs[x].done[k])
    {
      if x in s.jobs && k < |s.jobs[x].done| {
        assert DoneSealed(q, x, s.jobs[x].done[k]);
      }
    }
  }

  /** A step that seals nothing tells nothing new. */
  lemma OtherSealed(e: Env, q: set<(nat, bool, Bytes)>, s: Server, step: Step)
    requires AllSealed(q, s) && Enabled(s, step) && !step.Seal? && !step.HandOver? && !step.Callback?
    ensures AllSealed(q, Do(e, s, step))
  {
    SealedKeeps(q, q, s, Do(e, s, step), step.r);
  }

  /** The routine goes on to answer, or the program has ended, and the others are left alone. */
  predicate Leaves(s: Server, s': Server, r: nat) {
    && s'.jobs == s.jobs && r in s'.routines
    && (forall x :: x in s'.routines && x != r ==> x in s.routines && s'.routines[x] == s.routines[x])
    && match s'.routines[r]
       case Refusing(_, _, _, _, why) => why.Answering?
       case Offering(_, _, why) => why.Answering?
       case p => p.Responding?
  }

  lemma RefuseLeaves(s: Server, r: nat, p: Phase, ref: string, msg: string)
    requires p.Responding?
    ensures Leaves(s, Refuse(s, r, p, ref, msg), r)
  {
  }

  lemma RespondLeaves(s: Server, r: nat, p: Phase, keys: Keys, pub: Point)
    requires p.Responding? && p.resp in s.heap
    ensures Leaves(s, Respond(s, r, p, keys, pub), r)
  {
  }

  lemma RelayLeaves(s: Server, r: nat, p: Phase, got: Received, id: Id)
    requires p.Responding?
    ensures Leaves(s, DoRelay(s, r, p, got, id), r)
  {
  }

  lemma CallbackLeaves(e: Env, s: Server, r: nat, id: Id)
    requires Enabled(s, Callback(r, id))
    ensures Leaves(s, DoCallback(e, s, r, s.routines[r], id), r)
  {
    var p := s.routines[r];
    var got := InHand(s, p);
    var target := Get(got.meta, KEY_TARGET);
    if target == TARGET_RELAY {
      RelayLeaves(s, r, p, got, id);
    } else if target == TARGET_KEX_SERVER {
      match KeyFrom(e, got.data)
      case NoKey => RefuseLeaves(s, r, p, Ref(got), "malformed packet");
      case Incomplete =>
      case Complete(pub) =>
        var keys := Install(e.group, e.scalar, s.keys, p.v.from, pub, false);
        RespondLeaves(s, r, p, keys, PublicOf(e.group, e.scalar));
    } else if target == TARGET_KEX_CLIENT {
      match AddrFrom(e, got.data)
      case None => RefuseLeaves(s, r, p, Ref(got), "malformed packet");
      case Some(addr) =>
        if addr in s.keys {
          RespondLeaves(s, r, p, s.keys, s.keys[addr].public);
        } else {
          RefuseLeaves(s, r, p, Ref(got), "client non-existent");
        }
    } else {
      RefuseLeaves(s, r, p, Ref(got), "target not found");
    }
  }

  lemma CallbackSealed(e: Env, q: set<(nat, bool, Bytes)>, s: Server, r: nat, id: Id)
    requires AllSealed(q, s) && Enabled(s, Callback(r, id))
    ensures AllSealed(q, DoCallback(e, s, r, s.routines[r], id))
  {
    CallbackLeaves(e, s, r, id);
    SealedKeeps(q, q, s, DoCallback(e, s, r, s.routines[r], id), r);
  }

  lemma HandOverSealed(q: set<(nat, bool, Bytes)>, s: Server, r: nat, r': nat)
    requires AllSealed(q, s) && Enabled(s, HandOver(r, r'))
    ensures AllSealed(q, DoHandOver(s, r, r', s.routines[r]))
  {
    assert PhaseSealed(q, r, s.routines[r]);
    SealedKeeps(q, q, s, DoHandOver(s, r, r', s.routines[r]), r);
  }

  lemma SealSealed(e: Env, q: set<(nat, bool, Bytes)>, s: Server, r: nat, resolves: bool, nonce: Bytes)
    requires AllSealed(q, s) && Enabled(s, Seal(r, resolves, nonce))
    ensures AllSealed(q + {(r, resolves, nonce)}, DoSeal(e, s, r, s.routines[r], resolves, nonce))
  {
    var q' := q + {(r, resolves, nonce)};
    assert (r, resolves, nonce) in q';
    SealedKeeps(q, q', s, DoSeal(e, s, r, s.routines[r], resolves, nonce), r);
  }

  lemma {:induction false} RunSealed(e: Env, s: Server, steps: seq<Step>)
    requires Idle(s)
    ensures AllSealed(Sealings(e, s, steps), Exec(e, s, steps))
  {
    if steps != [] {
      var before, last := steps[..|steps| - 1], steps[|steps| - 1];
      var q, t := Sealings(e, s, before), Exec(e, s, before);
      RunSealed(e, s, before);
      assert SealingOf(t, last) == {} ==> q + SealingOf(t, last) == q;
      if Enabled(t, last) {
        match last
        case Seal(r, resolves, nonce) => SealSealed(e, q, t, r, resolves, nonce);
        case HandOver(r, r') => HandOverSealed(q, t, r, r');
        case Callback(r, id) => CallbackSealed(e, q, t, r, id);
        case _ => OtherSealed(e, q, t, last);
      }
    }
  }

  /** The keys with which a packet was sealed, or could not be. */
  function SealedWith(done: Outcome): Option<Keys> {
    match done
    case Wrote(_, at, _, _) => Some(at)
    case Enqueued(Reporting(_, at, _), _) => Some(at)
    case _ => None
  }

  /** One outcome per packet, in every interleaving: a routine that processed an outgoing packet has written it
    exactly once, as the sequential server would with the keys it had after `i` steps of the run; or enqueued exactly
    one error report instead; or neither. In the first two cases a sealing step of the routine found an address, and
    used the nonce; in the last one it found none. */
  lemma OneOutcomePerPacket(e: Env, s: Server, steps: seq<Step>, r: nat) returns (i: nat)
    requires Idle(s)
    requires var s' := Exec(e, s, steps); r in s'.jobs && r !in s'.routines && s'.jobs[r].start.FromQueue?
    ensures i <= |steps|
    ensures var job, at := Exec(e, s, steps).jobs[r], KeysAt(e, s, steps, i);
            && |job.done| == 1
            && match job.done[0]
               case Wrote(o, keys, nonce, wire) =>
                 && o == job.start.o && keys == at && (r, true, nonce) in Sealings(e, s, steps)
                 && Emit(e.aead, at, o, true, nonce, "").Written? && Emit(e.aead, at, o, true, nonce, "").wire == wire
               case Enqueued(why, o) =>
                 && why.Reporting? && why.o == job.start.o && why.at == at
                 && (r, true, why.nonce) in Sealings(e, s, steps)
                 && Emit(e.aead, at, why.o, true, why.nonce, o.text) == Requeued(at, o)
               case Unresolved(o) =>
                 o == job.start.o && exists x :: x in Sealings(e, s, steps) && x.0 == r && !x.1
  {
    RunOk(e, s, steps);
    RunSealed(e, s, steps);
    var s', past := Exec(e, s, steps), Past(e, s, steps);
    assert JobOk(e, past, s', r);
    var at := SealedWith(s'.jobs[r].done[0]);
    i := 0;
    if at.Some? {
      i :| At(past, i, at.value);
      Moment(e, s, steps, i, at.value);
    }
  }

  // ---------- every routine ends ----------

  lemma {:induction false} Unused(ids: set<Id>) returns (id: Id)
    ensures forall i :: i in ids ==> i < id
  {
    if ids == {} {
      id := 0;
    } else {
      var i :| i in ids;
      var below := Unused(ids - {i});
      id := if below > i then below else i + 1;
      assert forall j :: j in ids ==> j == i || j in ids - {i};
    }
  }

  /** The next step of a routine, with a new packet or a new routine where one is needed. */
  function NextStep(p: Phase, r: nat, id: Id, r': nat): Step {
    match p
    case Opening(_, _) => Open(r)
    case Opened(_, _, _) => Step.Decode(r, id, Reject)
    case Failed(_, _) => MakeError(r, id)
    case Decoded(_, _) => MakeResponse(r, id)
    case Responding(_, _, _) => Callback(r, id)
    case Refusing(_, _, _, _, _) => MakeError(r, id)
    case Offering(_, _, _) => HandOver(r, r')
    case Emitting(_, _) => Seal(r, true, [])
    case Writing(_, _, _, _, _) => Step.Write(r)
    case Returning(_) => PutBack(r)
  }

  lemma NextEnabled(e: Env, past: seq<Keys>, s: Server, r: nat, id: Id, r': nat)
    requires JobOk(e, past, s, r) && r in s.routines && id !in s.heap && r' !in s.jobs && !s.ended
    requires s.routines[r].Opening? ==> CanOpen(s.keys, s.routines[r].from, s.routines[r].wire)
    ensures Enabled(s, NextStep(s.routines[r], r, id, r'))
  {
  }

  lemma CallbackShortens(e: Env, s: Server, r: nat, p: Phase, id: Id)
    requires p.Responding? && p.pkt in s.heap && p.resp in s.heap
    ensures var s' := DoCallback(e, s, r, p, id); s'.ended || (r in s'.routines && StepsLeft(s'.routines[r]) < 4)
  {
  }

  lemma NextShortens(e: Env, s: Server, r: nat, id: Id, r': nat)
    requires r in s.routines && r' !in s.jobs && r in s.jobs
    requires Enabled(s, NextStep(s.routines[r], r, id, r'))
    ensures var s' := Do(e, s, NextStep(s.routines[r], r, id, r'));
            s'.ended || r !in s'.routines || StepsLeft(s'.routines[r]) < StepsLeft(s.routines[r])
  {
    match s.routines[r]
    case Responding(_, _, _) => CallbackShortens(e, s, r, s.routines[r], id);
    case _ =>
  }

  /** No routine is ever stuck: in every interleaving, as long as the program runs, each one can take a step of its own
    that brings it closer to its end, or ends the program, if the datagram it opens is long enough to split. So every
    path ends, with all packets put back if the program has not ended. */
  lemma CanMove(e: Env, s: Server, steps: seq<Step>, r: nat) returns (step: Step)
    requires Idle(s)
    requires var s' := Exec(e, s, steps);
             && r in s'.routines && !s'.ended
             && (s'.routines[r].Opening? ==> CanOpen(s'.keys, s'.routines[r].from, s'.routines[r].wire))
    ensures var s' := Exec(e, s, steps);
            && step.r == r && Enabled(s', step)
            && var t := Do(e, s', step);
               t.ended || r !in t.routines || StepsLeft(t.routines[r]) < StepsLeft(s'.routines[r])
  {
    var s' := Exec(e, s, steps);
    RunOk(e, s, steps);
    var past := Past(e, s, steps);
    assert JobOk(e, past, s', r);
    var id := Unused(s'.heap.Keys);
    var r' := Unused(s'.jobs.Keys);
    step := NextStep(s'.routines[r], r, id, r');
    NextEnabled(e, past, s', r, id, r');
    NextShortens(e, s', r, id, r');
  }
}
