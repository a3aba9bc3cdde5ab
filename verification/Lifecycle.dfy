/** The server's routines, interleaved at their locks and channels, with the packets they take from the pool and put
  back. */
module Lifecycle {
  import opened Bytes
  import opened Curve
  import opened PacketState
  import opened Relay
  import opened Sealing
  import Json

  type Id = nat

  // ---------- routines ----------

  /** A received datagram as it was opened and decoded: with the keys at the time, into a pooled packet, and with the
    decoder's answer for texts that are not laid out as printed. */
  datatype Visit = Visit(from: string, wire: Bytes, keys: Keys, pooled: PktState, other: Decoded)

  predicate CanVisit(v: Visit) {
    CanOpen(v.keys, v.from, v.wire)
  }

  function Got(e: Env, v: Visit): Option<Received>
    requires CanVisit(v)
  {
    Receive(v.pooled, DecryptTransport(e.aead, v.keys, v.from, v.wire), v.other)
  }

  /** Why a packet is enqueued: to answer a datagram, with the keys at the time of the callback; or to report that
    another packet could not be sealed. */
  datatype Why =
    | Answering(v: Visit, at: Keys)
    | Reporting(o: Outgoing, at: Keys, nonce: Bytes)

  /** Where a routine is, with the packets it holds. The first six belong to the processing of incoming data,
    `Emitting` and `Writing` to that of outgoing packets; `back` are the packets to put back before the routine ends.
    */
  datatype Phase =
    | Opening(from: string, wire: Bytes)
    | Opened(from: string, wire: Bytes, keys: Keys)
    | Failed(v: Visit, pkt: Id)
    | Decoded(v: Visit, pkt: Id)
    | Responding(v: Visit, pkt: Id, resp: Id)
    | Refusing(ref: string, dest: string, msg: string, back: seq<Id>, why: Why)
    | Offering(out: Id, back: seq<Id>, why: Why)
    | Emitting(id: Id, o: Outgoing)
    | Writing(id: Id, o: Outgoing, at: Keys, nonce: Bytes, wire: Bytes)
    | Returning(back: seq<Id>)

  function Holds(p: Phase): seq<Id> {
    match p
    case Opening(_, _) => []
    case Opened(_, _, _) => []
    case Failed(_, pkt) => [pkt]
    case Decoded(_, pkt) => [pkt]
    case Responding(_, pkt, resp) => [pkt, resp]
    case Refusing(_, _, _, back, _) => back
    case Offering(out, back, _) => [out] + back
    case Emitting(id, _) => [id]
    case Writing(id, _, _, _, _) => [id]
    case Returning(back) => back
  }

  /** How many steps of its own a routine has left at most. */
  function StepsLeft(p: Phase): nat {
    match p
    case Opening(_, _) => 7
    case Opened(_, _, _) => 6
    case Decoded(_, _) => 5
    case Responding(_, _, _) => 4
    case Failed(_, _) => 3
    case Emitting(_, _) => 4
    case Refusing(_, _, _, back, _) => |back| + 2
    case Offering(_, back, _) => |back| + 1
    case Writing(_, _, _, _, _) => 2
    case Returning(back) => |back|
  }

  /** What became of a routine's work. */
  datatype Outcome =
    | Enqueued(why: Why, o: Outgoing)
    | Wrote(o: Outgoing, at: Keys, nonce: Bytes, wire: Bytes)
    | Unresolved(o: Outgoing)

  datatype Start = FromNet(from: string, wire: Bytes) | FromQueue(o: Outgoing)

  /** What a routine was started for and what it has done so far. */
  datatype Job = Job(start: Start, done: seq<Outcome>)

  /** Once the program has `ended` no routine takes another step. */
  datatype Server = Server(
    keys: Keys, pool: set<Id>, heap: map<Id, PktState>, routines: map<nat, Phase>, jobs: map<nat, Job>, ended: bool)

  // ---------- steps ----------

  datatype Step =
    | Arrive(r: nat, from: string, wire: Bytes)
    | Open(r: nat)
    | Decode(r: nat, id: Id, other: Decoded)
    | MakeError(r: nat, id: Id)
    | MakeResponse(r: nat, id: Id)
    | Callback(r: nat, id: Id)
    | HandOver(r: nat, r': nat)
    | Seal(r: nat, resolves: bool, nonce: Bytes)
    | Write(r: nat)
    | PutBack(r: nat)

  /** The pool hands out a packet it has, or a new one. */
  predicate CanTake(s: Server, id: Id) {
    id in s.pool || id !in s.heap
  }

  function Taken(s: Server, id: Id): PktState {
    if id in s.heap then s.heap[id] else FRESH
  }

  predicate Enabled(s: Server, step: Step) {
    !s.ended && match step
    case Arrive(r, _, _) => r !in s.jobs
    case HandOver(r, r') =>
      && r in s.routines && r in s.jobs && r' !in s.jobs
      && s.routines[r].Offering? && s.routines[r].out in s.heap
    case _ =>
      && step.r in s.routines && step.r in s.jobs
      && var p := s.routines[step.r];
         match step
         case Open(_) => p.Opening? && CanOpen(s.keys, p.from, p.wire)
         case Decode(_, id, _) => p.Opened? && CanOpen(p.keys, p.from, p.wire) && CanTake(s, id)
         case MakeError(_, id) => (p.Failed? || p.Refusing?) && CanTake(s, id)
         case MakeResponse(_, id) => p.Decoded? && p.pkt in s.heap && CanTake(s, id)
         case Callback(_, id) => p.Responding? && p.pkt in s.heap && p.resp in s.heap && CanTake(s, id)
         case Seal(_, _, nonce) => p.Emitting? && p.id in s.heap
         case Write(_) => p.Writing?
         case PutBack(_) => p.Returning? && p.back != []
         case _ => false
  }

  function Goto(s: Server, r: nat, p: Phase): Server {
    s.(routines := s.routines[r := p])
  }

  /** Taking a packet out of the pool and setting it up. */
  function Take(s: Server, id: Id, state: PktState): Server {
    s.(pool := s.pool - {id}, heap := s.heap[id := state])
  }

  function Record(s: Server, r: nat, o: Outcome): Server
    requires r in s.jobs
  {
    s.(jobs := s.jobs[r := s.jobs[r].(done := s.jobs[r].done + [o])])
  }

  function DoDecode(e: Env, s: Server, r: nat, p: Phase, id: Id, other: Decoded): (s': Server)
    requires p.Opened? && CanOpen(p.keys, p.from, p.wire)
    ensures r in s'.routines && StepsLeft(s'.routines[r]) <= 5
  {
    var v := Visit(p.from, p.wire, p.keys, Taken(s, id), other);
    var start, o := Recycled(Taken(s, id), "", ""), Decoding(DecryptTransport(e.aead, p.keys, p.from, p.wire), other);
    Goto(Take(s, id, AfterDecode(start, o)), r, if DecodeSucceeds(start, o) then Decoded(v, id) else Failed(v, id))
  }

  /** An error packet is made for the sender of what could not be decoded, or for whoever is refused. */
  function DoMakeError(s: Server, r: nat, p: Phase, id: Id): (s': Server)
    requires p.Failed? || p.Refusing?
    ensures r in s'.routines && StepsLeft(s'.routines[r]) < StepsLeft(p)
  {
    if p.Failed? then
      Goto(Take(s, id, ErrorPkt(Taken(s, id), "", p.v.from, "malformed packet")), r,
           Offering(id, [p.pkt], Answering(p.v, s.keys)))
    else
      Goto(Take(s, id, ErrorPkt(Taken(s, id), p.ref, p.dest, p.msg)), r, Offering(id, p.back, p.why))
  }

  function DoMakeResponse(s: Server, r: nat, p: Phase, id: Id): (s': Server)
    requires p.Decoded? && p.pkt in s.heap
    ensures r in s'.routines && StepsLeft(s'.routines[r]) == 4
  {
    var ref := Get(s.heap[p.pkt].meta, KEY_REF);
    Goto(Take(s, id, Recycled(Taken(s, id), ref, p.v.from)), r, Responding(p.v, p.pkt, id))
  }

  /** The response goes back to the pool when the callback fails. */
  function Refuse(s: Server, r: nat, p: Phase, ref: string, msg: string): (s': Server)
    requires p.Responding?
    ensures r in s'.routines && StepsLeft(s'.routines[r]) == 3 && s.heap.Keys <= s'.heap.Keys && s'.jobs == s.jobs
  {
    Goto(s.(pool := s.pool + {p.resp}), r,
         Refusing(ref, p.v.from, "packet pipeline error: " + msg, [p.pkt], Answering(p.v, s.keys)))
  }

  /** The response is filled with a key, closed and sent. */
  function Respond(s: Server, r: nat, p: Phase, keys: Keys, pub: Point): (s': Server)
    requires p.Responding? && p.resp in s.heap
    ensures r in s'.routines && StepsLeft(s'.routines[r]) == 2 && s.heap.Keys <= s'.heap.Keys && s'.jobs == s.jobs
  {
    var full := Apply(Apply(Apply(s.heap[p.resp], Add(KEY_NO_CRYPTO, "true")), Op.Write(PrintKey(pub))), Close);
    Goto(s.(keys := keys, heap := s.heap[p.resp := full]), r, Offering(p.resp, [p.pkt], Answering(p.v, s.keys)))
  }

  function DoRelay(s: Server, r: nat, p: Phase, got: Received, id: Id): (s': Server)
    requires p.Responding?
    ensures r in s'.routines && StepsLeft(s'.routines[r]) == 3 && s.heap.Keys <= s'.heap.Keys && s'.jobs == s.jobs
  {
    var fwd := Recycled(Taken(s, id), Ref(got), Get(got.meta, KEY_RELAY_TO));
    var full := Apply(Apply(Apply(fwd, Add(KEY_RELAY_FROM, p.v.from)), Op.Write(got.data)), Close);
    Goto(Take(s, id, full), r, Offering(id, [p.resp, p.pkt], Answering(p.v, s.keys)))
  }

  function DoCallback(e: Env, s: Server, r: nat, p: Phase, id: Id): Server
    requires p.Responding? && p.pkt in s.heap && p.resp in s.heap
  {
    var got := Received(s.heap[p.pkt].meta, s.heap[p.pkt].buff);
    var target := Get(got.meta, KEY_TARGET);
    if target == TARGET_RELAY then DoRelay(s, r, p, got, id)
    else if target == TARGET_KEX_SERVER then
      match KeyFrom(e, got.data)
      case NoKey => Refuse(s, r, p, Ref(got), "malformed packet")
      case Incomplete => s.(ended := true)
      case Complete(pub) =>
        Respond(s, r, p, Install(e.group, e.scalar, s.keys, p.v.from, pub, false), PublicOf(e.group, e.scalar))
    else if target == TARGET_KEX_CLIENT then
      match AddrFrom(e, got.data)
      case None => Refuse(s, r, p, Ref(got), "malformed packet")
      case Some(addr) =>
        if addr !in s.keys then Refuse(s, r, p, Ref(got), "client non-existent")
        else Respond(s, r, p, s.keys, s.keys[addr].public)
    else Refuse(s, r, p, Ref(got), "target not found")
  }

  /** Over the channel the packet changes hands: a new routine owns it. */
  function DoHandOver(s: Server, r: nat, r': nat, p: Phase): (s': Server)
    requires p.Offering? && p.out in s.heap && r in s.jobs
    ensures r != r' ==> r in s'.routines && StepsLeft(s'.routines[r]) < StepsLeft(p)
  {
    var o := ToSend(s.heap[p.out]);
    var t := Record(s, r, Enqueued(p.why, o));
    t.(routines := s.routines[r := Returning(p.back)][r' := Emitting(p.out, o)],
       jobs := t.jobs[r' := Job(FromQueue(o), [])])
  }

  function DoSeal(e: Env, s: Server, r: nat, p: Phase, resolves: bool, nonce: Bytes): (s': Server)
    requires p.Emitting? && p.id in s.heap && r in s.jobs
    ensures r in s'.routines && StepsLeft(s'.routines[r]) <= 3
  {
    var o := ToSend(s.heap[p.id]);
    if !resolves then Goto(Record(s, r, Unresolved(o)), r, Returning([p.id]))
    else
      var x := EncryptTransport(e.aead, s.keys, o.meta, o.dest, nonce, Json.Marshal(o.meta, o.text));
      match x.err
      case None => Goto(s.(keys := x.keys), r, Writing(p.id, o, s.keys, nonce, x.data))
      case Some(err) =>
        Goto(s, r, Refusing(Get(o.meta, KEY_REF), o.dest, "pipeline error: " + ("pipeline terminated: " + err), [p.id],
                            Reporting(o, s.keys, nonce)))
  }

  function DoWrite(s: Server, r: nat, p: Phase): (s': Server)
    requires p.Writing? && r in s.jobs
    ensures r in s'.routines && StepsLeft(s'.routines[r]) == 1
  {
    Goto(Record(s, r, Wrote(p.o, p.at, p.nonce, p.wire)), r, Returning([p.id]))
  }

  function DoPutBack(s: Server, r: nat, p: Phase): (s': Server)
    requires p.Returning? && p.back != []
    ensures r !in s'.routines || StepsLeft(s'.routines[r]) < StepsLeft(p)
  {
    var t := s.(pool := s.pool + {p.back[0]});
    if |p.back| == 1 then t.(routines := s.routines - {r}) else Goto(t, r, Returning(p.back[1..]))
  }

  /** A step that cannot be taken changes nothing. */
  function Do(e: Env, s: Server, step: Step): Server {
    if !Enabled(s, step) then s
    else match step
      case Arrive(r, from, wire) =>
        Goto(s, r, Opening(from, wire)).(jobs := s.jobs[r := Job(FromNet(from, wire), [])])
      case Open(r) => Goto(s, r, Opened(s.routines[r].from, s.routines[r].wire, s.keys))
      case Decode(r, id, other) => DoDecode(e, s, r, s.routines[r], id, other)
      case MakeError(r, id) => DoMakeError(s, r, s.routines[r], id)
      case MakeResponse(r, id) => DoMakeResponse(s, r, s.routines[r], id)
      case Callback(r, id) => DoCallback(e, s, r, s.routines[r], id)
      case HandOver(r, r') => DoHandOver(s, r, r', s.routines[r])
      case Seal(r, resolves, nonce) => DoSeal(e, s, r, s.routines[r], resolves, nonce)
      case Write(r) => DoWrite(s, r, s.routines[r])
      case PutBack(r) => DoPutBack(s, r, s.routines[r])
  }

  function Exec(e: Env, s: Server, steps: seq<Step>): Server {
    if steps == [] then s else Do(e, Exec(e, s, steps[..|steps| - 1]), steps[|steps| - 1])
  }

  /** A running server with a warmed-up pool and nothing in progress. */
  predicate Idle(s: Server) {
    s.pool == s.heap.Keys && s.routines == map[] && s.jobs == map[] && !s.ended
  }

  // ---------- each packet in exactly one place ----------

  predicate Distinct(ids: seq<Id>) {
    forall i, j :: 0 <= i < j < |ids| ==> ids[i] != ids[j]
  }

  predicate Owns(s: Server, r: nat, id: Id) {
    r in s.routines && id in Holds(s.routines[r])
  }

  ghost predicate Held(s: Server, id: Id) {
    exists r :: Owns(s, r, id)
  }

  /** Every packet is in the pool or held by one routine, once, and never both. */
  ghost predicate Places(s: Server) {
    && s.pool <= s.heap.Keys
    && (forall r :: r in s.routines ==> Distinct(Holds(s.routines[r])))
    && (forall r, id :: Owns(s, r, id) ==> id in s.heap && id !in s.pool)
    && (forall r, r', id :: Owns(s, r, id) && Owns(s, r', id) ==> r == r')
    && (forall id :: id in s.heap ==> id in s.pool || Held(s, id))
  }

  /** What one routine's step may do with packets: exchange some between itself and the pool, and add new ones. */
  ghost predicate Exchange(s: Server, s': Server, r: nat) {
    && s'.routines - {r} == s.routines - {r}
    && (r in s'.routines ==> Distinct(Holds(s'.routines[r])))
    && (forall id :: Owns(s', r, id) ==> id in s'.heap && id !in s'.pool)
    && (forall id :: Owns(s', r, id) || id in s'.pool ==> Owns(s, r, id) || id in s.pool || id !in s.heap)
    && (forall id :: Owns(s, r, id) || id in s.pool ==> Owns(s', r, id) || id in s'.pool)
    && (forall id :: id in s'.heap && id !in s.heap ==> Owns(s', r, id))
    && s.heap.Keys <= s'.heap.Keys && s'.pool <= s'.heap.Keys
  }

  lemma OthersOwn(s: Server, s': Server, r: nat, x: nat, id: Id)
    requires s'.routines - {r} == s.routines - {r} && x != r
    ensures x in s.routines <==> x in s'.routines
    ensures x in s.routines ==> s'.routines[x] == s.routines[x]
    ensures Owns(s, x, id) <==> Owns(s', x, id)
  {
    assert x in s.routines <==> x in s.routines - {r};
    assert x in s'.routines <==> x in s'.routines - {r};
    if x in s.routines {
      assert (s.routines - {r})[x] == s.routines[x] && (s'.routines - {r})[x] == s'.routines[x];
    }
  }

  lemma ExchangeKeeps(s: Server, s': Server, r: nat)
    requires Places(s) && Exchange(s, s', r)
    ensures Places(s')
  {
    forall x, id | x != r
      ensures Owns(s, x, id) <==> Owns(s', x, id)
    {
      OthersOwn(s, s', r, x, id);
    }
    forall x | x in s'.routines
      ensures Distinct(Holds(s'.routines[x]))
    {
      if x != r {
        OthersOwn(s, s', r, x, 0);
      }
    }
    forall id | id in s'.heap
      ensures id in s'.pool || Held(s', id)
    {
      if id in s.heap && id !in s.pool {
        assert Held(s, id);
        var x :| Owns(s, x, id);
        assert Owns(s', x, id) || id in s'.pool;
      } else {
        assert Owns(s', r, id) || id in s'.pool;
      }
    }
  }

  lemma TakeKeeps(s: Server, id: Id, state: PktState, r: nat, p: Phase)
    requires Places(s) && r in s.routines && CanTake(s, id)
    requires forall x :: x in Holds(p) <==> Owns(s, r, x) || x == id
    requires Distinct(Holds(p))
    ensures Places(Goto(Take(s, id, state), r, p))
  {
    ExchangeKeeps(s, Goto(Take(s, id, state), r, p), r);
  }

  lemma StayKeeps(s: Server, s': Server, r: nat, p: Phase)
    requires Places(s) && s'.pool == s.pool && s'.heap.Keys == s.heap.Keys
    requires s'.routines == s.routines[r := p] && Distinct(Holds(p))
    requires forall x :: x in Holds(p) <==> Owns(s, r, x)
    ensures Places(s')
  {
    ExchangeKeeps(s, s', r);
  }

  lemma GiveKeeps(s: Server, s': Server, r: nat, id: Id, p: Phase)
    requires Places(s) && Owns(s, r, id) && s'.pool == s.pool + {id} && s'.heap.Keys == s.heap.Keys
    requires s'.routines == s.routines[r := p] && Distinct(Holds(p))
    requires forall x :: x in Holds(p) <==> Owns(s, r, x) && x != id
    ensures Places(s')
  {
    ExchangeKeeps(s, s', r);
  }

  lemma EndKeeps(s: Server, s': Server, r: nat, id: Id)
    requires Places(s) && r in s.routines && Holds(s.routines[r]) == [id] && s'.pool == s.pool + {id}
    requires s'.heap.Keys == s.heap.Keys
    requires s'.routines == s.routines - {r}
    ensures Places(s')
  {
    assert Owns(s, r, id);
    ExchangeKeeps(s, s', r);
  }

  /** The two packets of a routine that runs callbacks are different, and neither is one it can take. */
  lemma TwoHeld(s: Server, r: nat, id: Id)
    requires Places(s) && r in s.routines && s.routines[r].Responding? && CanTake(s, id)
    ensures var p := s.routines[r];
            && p.pkt != p.resp && id != p.pkt && id != p.resp
            && forall x :: Owns(s, r, x) <==> x == p.pkt || x == p.resp
  {
    var h := Holds(s.routines[r]);
    assert Distinct(h) && Owns(s, r, h[0]) && Owns(s, r, h[1]);
  }

  lemma RefusePlaces(s: Server, r: nat, ref: string, msg: string)
    requires Places(s) && r in s.routines && s.routines[r].Responding?
    ensures Places(Refuse(s, r, s.routines[r], ref, msg))
  {
    var p := s.routines[r];
    assert Distinct(Holds(p)) && Holds(p)[0] in Holds(p) && Holds(p)[1] in Holds(p);
    var s' := Refuse(s, r, p, ref, msg);
    GiveKeeps(s, s', r, p.resp, s'.routines[r]);
  }

  lemma RespondPlaces(s: Server, r: nat, keys: Keys, pub: Point)
    requires Places(s) && r in s.routines && s.routines[r].Responding? && s.routines[r].resp in s.heap
    ensures Places(Respond(s, r, s.routines[r], keys, pub))
  {
    var p := s.routines[r];
    assert Distinct(Holds(p)) && Holds(p)[0] in Holds(p) && Holds(p)[1] in Holds(p);
    var s' := Respond(s, r, p, keys, pub);
    assert Holds(s'.routines[r]) == [p.resp, p.pkt];
    StayKeeps(s, s', r, s'.routines[r]);
  }

  lemma RelayPlaces(s: Server, r: nat, got: Received, id: Id)
    requires Places(s) && r in s.routines && s.routines[r].Responding? && CanTake(s, id)
    ensures Places(DoRelay(s, r, s.routines[r], got, id))
  {
    var p := s.routines[r];
    TwoHeld(s, r, id);
    var s' := DoRelay(s, r, p, got, id);
    assert Holds(s'.routines[r]) == [id, p.resp, p.pkt];
    TakeKeeps(s, id, s'.heap[id], r, s'.routines[r]);
  }

  lemma CallbackPlaces(e: Env, s: Server, r: nat, id: Id)
    requires Places(s) && Enabled(s, Callback(r, id))
    ensures Places(DoCallback(e, s, r, s.routines[r], id))
  {
    var p := s.routines[r];
    var got := Received(s.heap[p.pkt].meta, s.heap[p.pkt].buff);
    var target := Get(got.meta, KEY_TARGET);
    if target == TARGET_RELAY {
      RelayPlaces(s, r, got, id);
    } else if target == TARGET_KEX_SERVER {
      match KeyFrom(e, got.data)
      case NoKey => RefusePlaces(s, r, Ref(got), "malformed packet");
      case Incomplete => StayKeeps(s, s.(ended := true), r, p);
      case Complete(pub) =>
        RespondPlaces(s, r, Install(e.group, e.scalar, s.keys, p.v.from, pub, false), PublicOf(e.group, e.scalar));
    } else if target == TARGET_KEX_CLIENT {
      match AddrFrom(e, got.data)
      case None => RefusePlaces(s, r, Ref(got), "malformed packet");
      case Some(addr) =>
        if addr in s.keys {
          RespondPlaces(s, r, s.keys, s.keys[addr].public);
        } else {
          RefusePlaces(s, r, Ref(got), "client non-existent");
        }
    } else {
      RefusePlaces(s, r, Ref(got), "target not found");
    }
  }

  /** A packet that is put back was not in the pool. */
  lemma PutBackPlaces(s: Server, r: nat)
    requires Places(s) && Enabled(s, PutBack(r))
    ensures Places(DoPutBack(s, r, s.routines[r]))
    ensures s.routines[r].back[0] !in s.pool
  {
    var p := s.routines[r];
    var s' := DoPutBack(s, r, p);
    assert Distinct(p.back) && Owns(s, r, p.back[0]);
    if |p.back| == 1 {
      assert p.back == [p.back[0]];
      EndKeeps(s, s', r, p.back[0]);
    } else {
      assert p.back == [p.back[0]] + p.back[1..];
      GiveKeeps(s, s', r, p.back[0], Returning(p.back[1..]));
    }
  }

  lemma DecodePlaces(e: Env, s: Server, r: nat, id: Id, other: Decoded)
    requires Places(s) && Enabled(s, Step.Decode(r, id, other))
    ensures Places(DoDecode(e, s, r, s.routines[r], id, other))
  {
    var s' := DoDecode(e, s, r, s.routines[r], id, other);
    assert Holds(s'.routines[r]) == [id];
    TakeKeeps(s, id, s'.heap[id], r, s'.routines[r]);
  }

  lemma MakeResponsePlaces(s: Server, r: nat, id: Id)
    requires Places(s) && Enabled(s, MakeResponse(r, id))
    ensures Places(DoMakeResponse(s, r, s.routines[r], id))
  {
    var p, s' := s.routines[r], DoMakeResponse(s, r, s.routines[r], id);
    assert Owns(s, r, p.pkt);
    assert Holds(s'.routines[r]) == [p.pkt, id];
    TakeKeeps(s, id, s'.heap[id], r, s'.routines[r]);
  }

  /** A packet a routine can take is none of those it holds. */
  lemma TakenIsNew(s: Server, r: nat, id: Id, back: seq<Id>)
    requires Places(s) && r in s.routines && CanTake(s, id) && Holds(s.routines[r]) == back
    ensures Distinct([id] + back) && forall x :: x in [id] + back <==> Owns(s, r, x) || x == id
  {
    var h := [id] + back;
    assert forall x :: x in back ==> Owns(s, r, x);
    assert Distinct(back);
    forall i, j | 0 <= i < j < |h|
      ensures h[i] != h[j]
    {
      assert h[j] == back[j - 1] && h[j] in back;
      assert i > 0 ==> h[i] == back[i - 1];
    }
  }

  lemma MakeErrorPlaces(s: Server, r: nat, id: Id)
    requires Places(s) && Enabled(s, MakeError(r, id))
    ensures Places(DoMakeError(s, r, s.routines[r], id))
  {
    var p, s' := s.routines[r], DoMakeError(s, r, s.routines[r], id);
    TakenIsNew(s, r, id, Holds(p));
    assert Holds(s'.routines[r]) == [id] + Holds(p);
    TakeKeeps(s, id, s'.heap[id], r, s'.routines[r]);
  }

  lemma SplitOffer(p: Phase)
    requires p.Offering? && Distinct(Holds(p))
    ensures Distinct(p.back) && p.out !in p.back
    ensures forall x :: x in Holds(p) <==> x == p.out || x in p.back
  {
    var h := Holds(p);
    assert h[0] == p.out && forall i :: 0 <= i < |p.back| ==> p.back[i] == h[i + 1];
  }

  /** The state after `r` has handed its packet over to the new routine `r'`. */
  predicate HandsOver(s: Server, s': Server, r: nat, r': nat, o: Outgoing) {
    && r in s.routines && s.routines[r].Offering? && r' !in s.routines
    && s'.pool == s.pool && s'.heap == s.heap
    && s'.routines == s.routines[r := Returning(s.routines[r].back)][r' := Emitting(s.routines[r].out, o)]
  }

  /** Who owns what after the hand-over. */
  lemma HandOverOwns(s: Server, s': Server, r: nat, r': nat, o: Outgoing, x: nat, id: Id)
    requires HandsOver(s, s', r, r', o) && Distinct(Holds(s.routines[r]))
    ensures var p := s.routines[r];
            Owns(s', x, id) <==>
            if x == r' then id == p.out else if x == r then Owns(s, r, id) && id != p.out else Owns(s, x, id)
  {
    SplitOffer(s.routines[r]);
  }

  lemma HandOverDistinct(s: Server, s': Server, r: nat, r': nat, o: Outgoing, x: nat)
    requires Places(s) && HandsOver(s, s', r, r', o) && x in s'.routines
    ensures Distinct(Holds(s'.routines[x]))
  {
    SplitOffer(s.routines[r]);
  }

  lemma HandOverHeld(s: Server, s': Server, r: nat, r': nat, o: Outgoing, id: Id)
    requires Places(s) && HandsOver(s, s', r, r', o) && id in s'.heap
    ensures id in s'.pool || Held(s', id)
  {
    if id !in s.pool {
      assert Held(s, id);
      var x :| Owns(s, x, id);
      var x' := if x == r && id == s.routines[r].out then r' else x;
      HandOverOwns(s, s', r, r', o, x', id);
      assert Owns(s', x', id);
    }
  }

  lemma HandOverPlaces(s: Server, s': Server, r: nat, r': nat, o: Outgoing)
    requires Places(s) && HandsOver(s, s', r, r', o)
    ensures Places(s')
  {
    assert Owns(s, r, s.routines[r].out);
    forall x, id
      ensures Owns(s', x, id) ==> id in s'.heap && id !in s'.pool
    {
      HandOverOwns(s, s', r, r', o, x, id);
    }
    forall x, y, id | Owns(s', x, id) && Owns(s', y, id)
      ensures x == y
    {
      HandOverOwns(s, s', r, r', o, x, id);
      HandOverOwns(s, s', r, r', o, y, id);
    }
    forall x | x in s'.routines
      ensures Distinct(Holds(s'.routines[x]))
    {
      HandOverDistinct(s, s', r, r', o, x);
    }
    forall id | id in s'.heap
      ensures id in s'.pool || Held(s', id)
    {
      HandOverHeld(s, s', r, r', o, id);
    }
  }
}
