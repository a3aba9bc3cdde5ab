/** When a client and the server can read everything they send each other. */
module Steady {
  import opened Bytes
  import opened Cipher
  import opened PacketState
  import opened Relay
  import opened Sealing
  import opened Protocol
  import opened Runs
  import opened Histories
  import Json

  /** The client has taken in the server's key and its transforms are installed. */
  predicate Completed(w: World, s: State, c: string) {
    w.server in InUse(ClientOf(s, c))
  }

  predicate IsServerAsk(s: State, r: string, who: Party) {
    AskedBy(s, r, who) && s.asked[r].what.ServerKey?
  }

  /** This life of the client has sent a request for an exchange with the server. */
  ghost predicate Asking(s: State, c: string) {
    exists r :: IsServerAsk(s, r, Now(s, c))
  }

  /** The two sides agree: what the server has for the client is the client's current point, and it seals only if the
    client can open; what the client has for the server is the server's current point, and only if the server has the
    client's. */
  ghost predicate InStep(w: World, s: State, c: string) {
    && (c in s.serverKeys ==>
          && Asking(s, c) && s.serverKeys[c].public == Pub(w, Now(s, c))
          && (s.serverKeys[c].keySent ==> Completed(w, s, c)))
    && (w.server in ClientOf(s, c).keys ==>
          c in s.serverKeys && ClientOf(s, c).keys[w.server].public == Pub(w, Now(s, w.server)))
  }

  // ---------- conditions on the steps of a run ----------

  /** Neither side starts anew, and no exchange message of an earlier life of either is taken in. */
  predicate SameLives(w: World, s: State, step: Step, c: string) {
    Enabled(w, s, step) ==>
      match step
      case Restart(x) => x != c && x != w.server
      case ServerAnswer(t, _) =>
        t.d.from.addr == c && Get(t.d.meta, KEY_TARGET) == TARGET_KEX_SERVER ==> t.d.from == Now(s, c)
      case ClientReceive(d, _) => d.to == c && IsServerAnswer(s, d) ==> d.from == Now(s, w.server)
      case _ => true
  }

  predicate IsServerAnswer(s: State, d: Datagram) {
    Get(d.meta, KEY_REF) in s.asked && s.asked[Get(d.meta, KEY_REF)].what.ServerKey?
  }

  /** The server sends the client nothing but exempt packets between the client's request for an exchange and the
    moment when the client has taken in the answer and installed the transforms. */
  ghost predicate Quiet(w: World, s: State, step: Step, c: string) {
    step.ServerEmit? && step.o.dest == c && !Exempt(step.o.meta) && Asking(s, c) ==> Completed(w, s, c)
  }

  ghost predicate SteadyStep(w: World, s: State, step: Step, c: string) {
    SameLives(w, s, step, c) && Quiet(w, s, step, c)
  }

  ghost predicate Steady(w: World, s: State, steps: seq<Step>, c: string) {
    forall i :: 0 <= i < |steps| ==> SteadyStep(w, Exec(w, s, steps[..i]), steps[i], c)
  }

  /** A run without a new start or a late exchange message. */
  predicate NoRekey(w: World, s: State, steps: seq<Step>, c: string) {
    forall i :: 0 <= i < |steps| ==> SameLives(w, Exec(w, s, steps[..i]), steps[i], c)
  }

  lemma SteadyBefore(w: World, s: State, steps: seq<Step>, c: string)
    requires steps != [] && Steady(w, s, steps, c)
    ensures Steady(w, s, steps[..|steps| - 1], c)
    ensures SteadyStep(w, Exec(w, s, steps[..|steps| - 1]), steps[|steps| - 1], c)
  {
    var before := steps[..|steps| - 1];
    forall i | 0 <= i < |before|
      ensures SteadyStep(w, Exec(w, s, before[..i]), before[i], c)
    {
      assert before[..i] == steps[..i];
    }
  }

  // ---------- steady steps keep the two sides in step ----------

  lemma AskingStays(w: World, s: State, s': State, c: string)
    requires Asking(s, c) && Grows(w, s, s') && Now(s', c) == Now(s, c)
    ensures Asking(s', c)
  {
    var r :| IsServerAsk(s, r, Now(s, c));
    assert IsServerAsk(s', r, Now(s', c));
  }

  /** A step after which nothing is different between the two, except that the client may have become able to open. */
  lemma InStepFrame(w: World, s: State, s': State, c: string)
    requires InStep(w, s, c) && Grows(w, s, s') && Now(s', c) == Now(s, c) && Now(s', w.server) == Now(s, w.server)
    requires (c in s'.serverKeys <==> c in s.serverKeys) && (c in s.serverKeys ==> s'.serverKeys[c] == s.serverKeys[c])
    requires ClientOf(s', c).keys == ClientOf(s, c).keys && (ClientOf(s, c).extended ==> ClientOf(s', c).extended)
    ensures InStep(w, s', c)
  {
    if c in s.serverKeys {
      AskingStays(w, s, s', c);
    }
  }

  lemma RegistersInStep(w: World, s: State, s': State, c: string, d: Datagram)
    requires InStep(w, s, c) && DatagramOk(w, s, d) && d.to == w.server && d.from == Now(s, c)
    requires Get(d.meta, KEY_TARGET) == TARGET_KEX_SERVER
    requires s' == s.(serverKeys := s'.serverKeys, held := s'.held, queue := s'.queue)
    requires c in s'.serverKeys && !s'.serverKeys[c].keySent && s'.serverKeys[c].public == Pub(w, d.from)
    ensures InStep(w, s', c)
  {
    assert IsServerAsk(s', d.meta[KEY_REF], Now(s', c));
  }

  lemma AnswerInStep(w: World, s: State, t: Taken, stale: string, c: string)
    requires Inv(w, s) && InStep(w, s, c) && t in s.held && SameLives(w, s, ServerAnswer(t, stale), c)
    ensures InStep(w, AfterAnswer(w, s, t, stale), c)
  {
    AnswerStores(w, s, t, stale);
    AnswerGrows(w, s, t, stale);
    assert HeldOk(w, s, t) && DatagramOk(w, s, t.d);
    TableInStep(w, s, AfterAnswer(w, s, t, stale), t, c);
  }

  lemma TableInStep(w: World, s: State, s': State, t: Taken, c: string)
    requires InStep(w, s, c) && DatagramOk(w, s, t.d) && t.d.to == w.server && Grows(w, s, s')
    requires t.d.from.addr == c && Get(t.d.meta, KEY_TARGET) == TARGET_KEX_SERVER ==> t.d.from == Now(s, c)
    requires s' == s.(serverKeys := s'.serverKeys, held := s'.held, queue := s'.queue)
    requires s'.serverKeys ==
             if t.p.None? || Get(t.d.meta, KEY_TARGET) != TARGET_KEX_SERVER then s.serverKeys
             else Install(w.group, ServerEnv(w, s).scalar, s.serverKeys, t.d.from.addr, Pub(w, t.d.from), false)
    ensures InStep(w, s', c)
  {
    if HeardIn(t, c).Some? {
      RegistersInStep(w, s, s', c, t.d);
    } else {
      InStepFrame(w, s, s', c);
    }
  }

  lemma OpenInStep(w: World, s: State, t: Taken, c: string)
    requires InStep(w, s, c)
    ensures InStep(w, s.(held := s.held + multiset{t}), c)
  {
    OpenGrows(w, s, t);
    InStepFrame(w, s, s.(held := s.held + multiset{t}), c);
  }

  /** Sealing for an address changes at most the mark of that address, and only for a packet that is not exempt. */
  lemma SealMarks(a: Aead, keys: Keys, m: Meta, dest: string, nonce: Bytes, buff: Bytes, c: string)
    ensures var keys' := EncryptTransport(a, keys, m, dest, nonce, buff).keys;
            && (c in keys' <==> c in keys)
            && (c in keys ==> keys'[c] == keys[c] || (keys'[c] == keys[c].(keySent := true) && dest == c && !Exempt(m)))
  {
  }

  lemma EmitInStep(w: World, s: State, o: Outgoing, resolves: bool, nonce: Bytes, stale: string, c: string)
    requires InStep(w, s, c) && Quiet(w, s, ServerEmit(o, resolves, nonce, stale), c)
    ensures InStep(w, AfterEmit(w, s, o, nonce, Emit(w.aead, s.serverKeys, o, resolves, nonce, stale)), c)
  {
    var s' := AfterEmit(w, s, o, nonce, Emit(w.aead, s.serverKeys, o, resolves, nonce, stale));
    EmitTable(w, s, o, resolves, nonce, stale);
    SealMarks(w.aead, s.serverKeys, o.meta, o.dest, nonce, Json.Marshal(o.meta, o.text), c);
    EmitGrows(w, s, o, resolves, nonce, stale);
    if c in s.serverKeys {
      AskingStays(w, s, s', c);
    }
  }

  lemma LearnInStep(w: World, s: State, d: Datagram, p: Option<Received>)
    requires Inv(w, s) && d in s.net && d.to != w.server && InStep(w, s, d.to)
    requires IsServerAnswer(s, d) ==> d.from == Now(s, w.server)
    requires p == None || p == Content(d.meta, d.text)
    ensures InStep(w, Learn(w, s, d.to, p), d.to)
  {
    var s' := Learn(w, s, d.to, p);
    LearnOnly(w, s, d.to, p);
    LearnGrows(w, s, d.to, p);
    if d.to in s.serverKeys {
      AskingStays(w, s, s', d.to);
    }
    if p.Some? && Awaits(s, d.to, Ref(p.value)) {
      LearnIs(w, s, d.to, p.value);
      assert AskOk(w, s, Ref(p.value));
      if s.asked[Ref(p.value)].what.ServerKey? {
        assert DatagramOk(w, s, d);
        AnswerBrings(w, s, d, p.value);
      }
    }
  }

  lemma ClientReceiptInStep(w: World, s: State, d: Datagram, pooled: PktState, c: string)
    requires Sound(w) && Inv(w, s) && InStep(w, s, c) && Enabled(w, s, ClientReceive(d, pooled))
    requires SameLives(w, s, ClientReceive(d, pooled), c)
    ensures InStep(w, Do(w, s, ClientReceive(d, pooled)), c)
  {
    var p := Receive(pooled, ClientOpen(w, ClientOf(s, d.to), d.wire), Reject);
    ClientRecovers(w, s, d, pooled);
    if d.to == c {
      LearnInStep(w, s, d, p);
    } else {
      LearnOnly(w, s, d.to, p);
      LearnGrows(w, s, d.to, p);
      InStepFrame(w, s, Learn(w, s, d.to, p), c);
    }
  }

  lemma SendInStep(w: World, s: State, step: Step, c: string)
    requires Inv(w, s) && InStep(w, s, c) && IsSend(step) && Enabled(w, s, step)
    ensures InStep(w, Do(w, s, step), c)
  {
    assert ClientOk(w, s, step.c);
    SendStepOnly(w, s, step);
    SendStepGrows(w, s, step);
    InStepFrame(w, s, DoSend(w, s, step), c);
  }

  lemma ExtendInStep(w: World, s: State, x: string, c: string)
    requires InStep(w, s, c)
    ensures InStep(w, s.(clients := s.clients[x := ClientOf(s, x).(extended := true)]), c)
  {
    InStepFrame(w, s, s.(clients := s.clients[x := ClientOf(s, x).(extended := true)]), c);
  }

  lemma RestartInStep(w: World, s: State, x: string, c: string)
    requires InStep(w, s, c) && x != c && x != w.server
    ensures InStep(w, Restarted(w, s, x), c)
  {
    RestartGrows(w, s, x);
    InStepFrame(w, s, Restarted(w, s, x), c);
  }

  lemma StepInStep(w: World, s: State, step: Step, c: string)
    requires Sound(w) && Inv(w, s) && c != w.server && InStep(w, s, c) && SteadyStep(w, s, step, c)
    ensures InStep(w, Do(w, s, step), c)
  {
    if Enabled(w, s, step) {
      match step
      case ServerOpen(d, pooled) => OpenInStep(w, s, Opened(w, s, d, pooled), c);
      case ServerAnswer(t, stale) => AnswerInStep(w, s, t, stale, c);
      case ServerEmit(o, resolves, nonce, stale) => EmitInStep(w, s, o, resolves, nonce, stale, c);
      case ClientReceive(d, pooled) => ClientReceiptInStep(w, s, d, pooled, c);
      case Extend(x) => ExtendInStep(w, s, x, c);
      case Restart(x) => RestartInStep(w, s, x, c);
      case _ => SendInStep(w, s, step, c);
    }
  }

  lemma {:induction false} RunInStep(w: World, s: State, steps: seq<Step>, c: string)
    requires Sound(w) && Inv(w, s) && c != w.server && InStep(w, s, c) && Steady(w, s, steps, c)
    ensures InStep(w, Exec(w, s, steps), c)
  {
    if steps != [] {
      SteadyBefore(w, s, steps, c);
      RunKeeps(w, s, steps[..|steps| - 1]);
      RunInStep(w, s, steps[..|steps| - 1], c);
      StepInStep(w, Exec(w, s, steps[..|steps| - 1]), steps[|steps| - 1], c);
    }
  }

  // ---------- what the two can read ----------

  /** The datagram goes from one of the two to the other and was sealed, if at all, between their current lives. */
  predicate Between(w: World, s: State, d: Datagram, c: string) {
    || d.against.None?
    || (d.to == c && d.from == Now(s, w.server) && d.against.value == Pub(w, Now(s, c)) && Completed(w, s, c))
    || (&& d.to == w.server && d.from == Now(s, c) && d.against.value == Pub(w, Now(s, w.server))
        && w.server in ClientOf(s, c).keys)
  }

  /** When they are in step they can read what is between them. */
  lemma BetweenIsReadable(w: World, s: State, d: Datagram, c: string)
    requires Sound(w) && Inv(w, s) && c != w.server && InStep(w, s, c) && Between(w, s, d, c)
    ensures Readable(w, s, d)
  {
    SharedSymmetric(w, Now(s, c), Now(s, w.server));
    assert ClientOk(w, s, c);
    if c in s.serverKeys {
      assert EntryOk(w, s.lives, c, s.serverKeys[c]);
    }
  }

  predicate NoLess(cl: Client, cl': Client) {
    cl.keys.Keys <= cl'.keys.Keys && (cl.extended ==> cl'.extended)
  }

  lemma LearnGrowsKeys(w: World, s: State, c: string, p: Option<Received>, x: string)
    ensures NoLess(ClientOf(s, x), ClientOf(Learn(w, s, c, p), x))
  {
    LearnOnly(w, s, c, p);
    if p.Some? && Awaits(s, c, Ref(p.value)) {
      LearnIs(w, s, c, p.value);
    }
  }

  lemma ReceiptGrowsKeys(w: World, s: State, d: Datagram, pooled: PktState, x: string)
    requires Enabled(w, s, ClientReceive(d, pooled))
    ensures NoLess(ClientOf(s, x), ClientOf(Do(w, s, ClientReceive(d, pooled)), x))
  {
    LearnGrowsKeys(w, s, d.to, Receive(pooled, ClientOpen(w, ClientOf(s, d.to), d.wire), Reject), x);
  }

  lemma LocalGrows(w: World, s: State, step: Step, c: string)
    requires (step.Extend? || step.Restart?) && step != Restart(c)
    ensures NoLess(ClientOf(s, c), ClientOf(Do(w, s, step), c))
  {
  }

  /** No step but a new start takes keys or transforms from a client. */
  lemma ClientGrows(w: World, s: State, step: Step, c: string)
    requires Inv(w, s) && step != Restart(c)
    ensures NoLess(ClientOf(s, c), ClientOf(Do(w, s, step), c))
  {
    if step.ServerOpen? || step.ServerAnswer? || step.ServerEmit? {
      ServerLearns(w, s, step, c);
    } else if step.Extend? || step.Restart? {
      LocalGrows(w, s, step, c);
    } else if Enabled(w, s, step) {
      if step.ClientReceive? {
        ReceiptGrowsKeys(w, s, step.d, step.pooled, c);
      } else {
        SendsLearn(w, s, step, c);
      }
    }
  }

  lemma BetweenStays(w: World, s: State, step: Step, d: Datagram, c: string)
    requires Inv(w, s) && c != w.server && Between(w, s, d, c) && SameLives(w, s, step, c)
    ensures Between(w, Do(w, s, step), d, c)
  {
    ClientGrows(w, s, step, c);
    LifeStays(w, s, step, c);
    LifeStays(w, s, step, w.server);
  }

  /** The datagram goes to the client, or from the client with the server as its destination. */
  predicate Connects(w: World, d: Datagram, c: string) {
    d.to == c || (d.from.addr == c && d.to == w.server && (d.dest == w.server || d.against.None?))
  }

  lemma NewBetween(w: World, s: State, step: Step, d: Datagram, c: string)
    requires Inv(w, s) && c != w.server && InStep(w, s, c) && SameLives(w, s, step, c)
    requires d in Do(w, s, step).net && d !in s.net && Connects(w, d, c)
    ensures Between(w, s, d, c)
  {
    match step
    case ServerOpen(_, _) =>
    case ServerAnswer(t, stale) => AnswerOnly(w, s, t, stale);
    case ServerEmit(o, resolves, nonce, stale) => NewEmitted(w, s, o, resolves, nonce, stale, d);
    case ClientReceive(d', pooled) =>
      if Enabled(w, s, step) {
        ClientReceiveOnly(w, s, d', pooled);
      }
    case Extend(_) =>
    case Restart(_) =>
    case _ => NewSent(w, s, step, d, c);
  }

  lemma NewSent(w: World, s: State, step: Step, d: Datagram, c: string)
    requires Inv(w, s) && c != w.server && InStep(w, s, c) && IsSend(step)
    requires d in Do(w, s, step).net && d !in s.net && Connects(w, d, c)
    ensures Between(w, s, d, c)
  {
    assert ClientOk(w, s, step.c);
    SendStepOnly(w, s, step);
  }

  lemma NewEmitted(w: World, s: State, o: Outgoing, resolves: bool, nonce: Bytes, stale: string, d: Datagram)
    requires d in AfterEmit(w, s, o, nonce, Emit(w.aead, s.serverKeys, o, resolves, nonce, stale)).net && d !in s.net
    ensures d.from == Now(s, w.server) && d.to == o.dest && d.against == Against(s.serverKeys, o.meta, o.dest)
    ensures d.meta == o.meta && d.text == o.text
  {
  }

  lemma {:induction false} RunBetween(w: World, s: State, steps: seq<Step>, d: Datagram, c: string)
    requires Sound(w) && Inv(w, s) && c != w.server && InStep(w, s, c) && Steady(w, s, steps, c)
    requires d in Exec(w, s, steps).net && d !in s.net && Connects(w, d, c)
    ensures Between(w, Exec(w, s, steps), d, c)
  {
    if steps != [] {
      var before, last := steps[..|steps| - 1], steps[|steps| - 1];
      var t := Exec(w, s, before);
      SteadyBefore(w, s, steps, c);
      RunKeeps(w, s, before);
      RunInStep(w, s, before, c);
      if d in t.net {
        RunBetween(w, s, before, d, c);
      } else {
        NewBetween(w, t, last, d, c);
      }
      BetweenStays(w, t, last, d, c);
    }
  }

  lemma {:induction false} ExecSplit(w: World, s: State, a: seq<Step>, b: seq<Step>)
    ensures Exec(w, s, a + b) == Exec(w, Exec(w, s, a), b)
  {
    if b == [] {
      assert a + b == a;
    } else {
      ExecSplit(w, s, a, b[..|b| - 1]);
      assert (a + b)[..|a + b| - 1] == a + b[..|b| - 1];
    }
  }

  /** Transparency over runs, in both directions and in every branch of the transforms: exempt, no key, first unsealed
    and sealed. From any reachable state in which client and server are in step, such as the first, and over any
    further steps in which neither starts anew or takes in exchange messages of earlier lives, and the server sends
    the client nothing but exempt packets while an exchange is under way, every datagram between the two is recovered
    exactly by its receiver, however late it arrives. */
  lemma TransparentRun(w: World, pre: seq<Step>, steps: seq<Step>, c: string, d: Datagram)
    requires Sound(w) && c != w.server && InStep(w, After(w, pre), c) && Steady(w, After(w, pre), steps, c)
    requires d in After(w, pre + steps).net && d !in After(w, pre).net && Connects(w, d, c)
    ensures var s := After(w, pre + steps);
            if d.to == w.server then
              && CanOpen(s.serverKeys, d.from.addr, d.wire)
              && DecryptTransport(w.aead, s.serverKeys, d.from.addr, d.wire) == Json.Marshal(d.meta, d.text)
            else
              && CanOpen(InUse(ClientOf(s, d.to)), w.server, d.wire)
              && ClientOpen(w, ClientOf(s, d.to), d.wire) == Json.Marshal(d.meta, d.text)
  {
    var s := After(w, pre + steps);
    ExecSplit(w, Init(), pre, steps);
    ReachableOk(w, pre);
    ReachableOk(w, pre + steps);
    RunInStep(w, After(w, pre), steps, c);
    RunBetween(w, After(w, pre), steps, d, c);
    BetweenIsReadable(w, s, d, c);
    if d.to == w.server {
      ServerRecovers(w, s, d, FRESH);
    } else {
      ClientRecovers(w, s, d, FRESH);
    }
  }

  // ---------- runs in which nobody starts anew ----------

  /** Nobody starts anew, and all that is emitted is exempt. */
  predicate Tame(step: Step) {
    !step.Restart? && (step.ServerEmit? ==> Exempt(step.o.meta))
  }

  ghost predicate AllFirst(s: State) {
    forall x :: Now(s, x).life == 0
  }

  lemma {:induction false} FirstLives(w: World, steps: seq<Step>)
    requires Sound(w) && forall i :: 0 <= i < |steps| ==> !steps[i].Restart?
    ensures AllFirst(After(w, steps))
  {
    if steps != [] {
      var before, last := steps[..|steps| - 1], steps[|steps| - 1];
      FirstLives(w, before);
      ReachableOk(w, before);
      forall x
        ensures Now(After(w, steps), x).life == 0
      {
        LifeStays(w, After(w, before), last, x);
      }
    }
  }

  /** If nobody has started anew, all messages are of the current lives. */
  lemma FirstLivesSame(w: World, s: State, step: Step, c: string)
    requires Inv(w, s) && AllFirst(s) && !step.Restart?
    ensures SameLives(w, s, step, c)
  {
    if Enabled(w, s, step) {
      if step.ServerAnswer? {
        assert HeldOk(w, s, step.t) && DatagramOk(w, s, step.t.d);
      } else if step.ClientReceive? {
        assert DatagramOk(w, s, step.d);
      }
    }
  }

  /** Runs in which nobody starts anew and nothing but exempt packets is emitted are steady. */
  lemma TameIsSteady(w: World, steps: seq<Step>, c: string)
    requires Sound(w) && forall i :: 0 <= i < |steps| ==> Tame(steps[i])
    ensures Steady(w, Init(), steps, c)
  {
    forall i | 0 <= i < |steps|
      ensures SteadyStep(w, Exec(w, Init(), steps[..i]), steps[i], c)
    {
      assert forall k :: 0 <= k < i ==> steps[..i][k] == steps[k];
      FirstLives(w, steps[..i]);
      ReachableOk(w, steps[..i]);
      FirstLivesSame(w, After(w, steps[..i]), steps[i], c);
    }
  }

  /** So they leave everyone in step with the server. */
  lemma TameInStep(w: World, steps: seq<Step>, c: string)
    requires Sound(w) && c != w.server && forall i :: 0 <= i < |steps| ==> Tame(steps[i])
    ensures InStep(w, After(w, steps), c)
  {
    InitOk(w);
    TameIsSteady(w, steps, c);
    RunInStep(w, Init(), steps, c);
  }

  // ---------- once an exchange is complete ----------

  lemma NoRekeyBefore(w: World, s: State, steps: seq<Step>, c: string)
    requires steps != [] && NoRekey(w, s, steps, c)
    ensures NoRekey(w, s, steps[..|steps| - 1], c)
    ensures SameLives(w, Exec(w, s, steps[..|steps| - 1]), steps[|steps| - 1], c)
  {
    var before := steps[..|steps| - 1];
    forall i | 0 <= i < |before|
      ensures SameLives(w, Exec(w, s, before[..i]), before[i], c)
    {
      assert before[..i] == steps[..i];
    }
  }

  lemma SteadyAfter(w: World, s: State, steps: seq<Step>, c: string)
    requires steps != [] && Steady(w, s, steps[..|steps| - 1], c)
    requires SteadyStep(w, Exec(w, s, steps[..|steps| - 1]), steps[|steps| - 1], c)
    ensures Steady(w, s, steps, c)
  {
    var before := steps[..|steps| - 1];
    forall i | 0 <= i < |steps|
      ensures SteadyStep(w, Exec(w, s, steps[..i]), steps[i], c)
    {
      if i < |before| {
        assert before[..i] == steps[..i];
        assert SteadyStep(w, Exec(w, s, before[..i]), before[i], c);
      }
    }
  }

  /** The two sides are the ones they were. */
  predicate SamePair(w: World, s: State, s': State, c: string) {
    Now(s', c) == Now(s, c) && Now(s', w.server) == Now(s, w.server)
  }

  lemma StaysCompleted(w: World, s: State, step: Step, c: string)
    requires Inv(w, s) && c != w.server && Completed(w, s, c) && SameLives(w, s, step, c)
    ensures Completed(w, Do(w, s, step), c) && SamePair(w, s, Do(w, s, step), c)
    ensures SteadyStep(w, s, step, c)
  {
    ClientGrows(w, s, step, c);
    LifeStays(w, s, step, c);
    LifeStays(w, s, step, w.server);
  }

  /** After that, the server need not keep quiet: not starting anew is enough. */
  lemma {:induction false} CompletedIsSteady(w: World, s: State, steps: seq<Step>, c: string)
    requires Sound(w) && Inv(w, s) && c != w.server && Completed(w, s, c) && NoRekey(w, s, steps, c)
    ensures Steady(w, s, steps, c)
    ensures Completed(w, Exec(w, s, steps), c) && SamePair(w, s, Exec(w, s, steps), c)
  {
    if steps != [] {
      var before := steps[..|steps| - 1];
      NoRekeyBefore(w, s, steps, c);
      CompletedIsSteady(w, s, before, c);
      RunKeeps(w, s, before);
      StaysCompleted(w, Exec(w, s, before), steps[|steps| - 1], c);
      SteadyAfter(w, s, steps, c);
    }
  }

  /** All that the two have sent each other, apart from the datagrams in `past`, is between their current lives. */
  ghost predicate AllBetween(w: World, past: set<Datagram>, s: State, c: string) {
    forall d :: d in s.net && d !in past && Connects(w, d, c) ==> Between(w, s, d, c)
  }

  /** The exchange is complete, the two are in step, and can read all they have sent each other since `past`. */
  ghost predicate Settled(w: World, past: set<Datagram>, s: State, c: string) {
    c != w.server && Completed(w, s, c) && InStep(w, s, c) && AllBetween(w, past, s, c)
  }

  lemma SettledStep(w: World, past: set<Datagram>, s: State, step: Step, c: string)
    requires Sound(w) && Inv(w, s) && Settled(w, past, s, c) && SameLives(w, s, step, c)
    ensures Settled(w, past, Do(w, s, step), c) && SamePair(w, s, Do(w, s, step), c)
  {
    var s' := Do(w, s, step);
    StaysCompleted(w, s, step, c);
    StepInStep(w, s, step, c);
    forall d | d in s'.net && d !in past && Connects(w, d, c)
      ensures Between(w, s', d, c)
    {
      if d !in s.net {
        NewBetween(w, s, step, d, c);
      }
      BetweenStays(w, s, step, d, c);
    }
  }

  lemma {:induction false} SettledRun(w: World, past: set<Datagram>, s: State, steps: seq<Step>, c: string)
    requires Sound(w) && Inv(w, s) && Settled(w, past, s, c) && NoRekey(w, s, steps, c)
    ensures Settled(w, past, Exec(w, s, steps), c) && SamePair(w, s, Exec(w, s, steps), c)
  {
    if steps != [] {
      var before := steps[..|steps| - 1];
      NoRekeyBefore(w, s, steps, c);
      RunKeeps(w, s, before);
      SettledRun(w, past, s, before, c);
      SettledStep(w, past, Exec(w, s, before), steps[|steps| - 1], c);
    }
  }

  /** A datagram between the two stays so as long as neither starts anew. */
  lemma {:induction false} BetweenRun(w: World, s: State, steps: seq<Step>, d: Datagram, c: string)
    requires Sound(w) && Inv(w, s) && c != w.server && Between(w, s, d, c) && NoRekey(w, s, steps, c)
    ensures Between(w, Exec(w, s, steps), d, c)
  {
    if steps != [] {
      var before := steps[..|steps| - 1];
      NoRekeyBefore(w, s, steps, c);
      RunKeeps(w, s, before);
      BetweenRun(w, s, before, d, c);
      BetweenStays(w, Exec(w, s, before), steps[|steps| - 1], d, c);
    }
  }
}
