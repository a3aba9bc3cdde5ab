/** Which points are stored, in terms of what was received before. */
module Histories {
  import opened Bytes
  import opened Cipher
  import opened Curve
  import opened PacketState
  import opened Relay
  import opened Sealing
  import opened Protocol
  import opened Runs
  import Base64
  import Json

  // ---------- the server's points ----------

  /** The life of `x` whose request for an exchange this is. */
  function HeardIn(t: Taken, x: string): Option<nat> {
    if t.p.Some? && t.d.from.addr == x && Get(t.d.meta, KEY_TARGET) == TARGET_KEX_SERVER then Some(t.d.from.life)
    else None
  }

  /** The life of `x` whose request for an exchange the server answers with this step. */
  function Heard(w: World, s: State, step: Step, x: string): Option<nat> {
    if step.ServerAnswer? && Enabled(w, s, step) then HeardIn(step.t, x) else None
  }

  /** The life of `x` whose request the server answered last, since the server was last restarted. */
  function LastHeard(w: World, steps: seq<Step>, x: string): Option<nat> {
    if steps == [] then None
    else
      var before, last := steps[..|steps| - 1], steps[|steps| - 1];
      if last == Restart(w.server) then None
      else if Heard(w, After(w, before), last, x).Some? then Heard(w, After(w, before), last, x)
      else LastHeard(w, before, x)
  }

  predicate HasLife(w: World, keys: Keys, x: string, life: Option<nat>) {
    && (x in keys <==> life.Some?)
    && (x in keys ==> keys[x].public == Pub(w, Party(x, life.value)))
  }

  /** Of what the server can read, only an exchange request changes the table: the sender's point is stored. */
  lemma ContentStores(w: World, s: State, d: Datagram, stale: string)
    requires Inv(w, s) && d in s.net && d.to == w.server
    ensures Handle(ServerEnv(w, s), s.serverKeys, d.from.addr, Content(d.meta, d.text), stale).keys ==
            if Get(d.meta, KEY_TARGET) != TARGET_KEX_SERVER then s.serverKeys
            else Install(w.group, ServerEnv(w, s).scalar, s.serverKeys, d.from.addr, Pub(w, d.from), false)
  {
    var p := Content(d.meta, d.text);
    if p.Some? {
      AnswerKeys(ServerEnv(w, s), s.serverKeys, d.from.addr, p.value, stale);
    }
    if Get(d.meta, KEY_TARGET) == TARGET_KEX_SERVER {
      assert DatagramOk(w, s, d);
      KeyContent(d.meta, Pub(w, d.from));
    }
  }

  /** The table after an answer. */
  lemma AnswerStores(w: World, s: State, t: Taken, stale: string)
    requires Inv(w, s) && t in s.held
    ensures AfterAnswer(w, s, t, stale).serverKeys ==
            if t.p.None? || Get(t.d.meta, KEY_TARGET) != TARGET_KEX_SERVER then s.serverKeys
            else Install(w.group, ServerEnv(w, s).scalar, s.serverKeys, t.d.from.addr, Pub(w, t.d.from), false)
  {
    assert HeldOk(w, s, t);
    if t.p.Some? {
      ContentStores(w, s, t.d, stale);
    }
  }

  lemma SealKeepsPoints(a: Aead, keys: Keys, m: Meta, dest: string, nonce: Bytes, buff: Bytes)
    ensures var keys' := EncryptTransport(a, keys, m, dest, nonce, buff).keys;
            && keys'.Keys == keys.Keys
            && forall x :: x in keys ==> keys'[x].public == keys[x].public && keys'[x].shared == keys[x].shared
  {
  }

  lemma EmitKeepsPoints(w: World, s: State, o: Outgoing, resolves: bool, nonce: Bytes, stale: string)
    ensures var s' := AfterEmit(w, s, o, nonce, Emit(w.aead, s.serverKeys, o, resolves, nonce, stale));
            && s'.serverKeys.Keys == s.serverKeys.Keys
            && forall x :: x in s.serverKeys ==>
                 && s'.serverKeys[x].public == s.serverKeys[x].public
                 && s'.serverKeys[x].shared == s.serverKeys[x].shared
  {
    EmitTable(w, s, o, resolves, nonce, stale);
    SealKeepsPoints(w.aead, s.serverKeys, o.meta, o.dest, nonce, Json.Marshal(o.meta, o.text));
  }

  lemma EmitTable(w: World, s: State, o: Outgoing, resolves: bool, nonce: Bytes, stale: string)
    ensures var r := EncryptTransport(w.aead, s.serverKeys, o.meta, o.dest, nonce, Json.Marshal(o.meta, o.text));
            AfterEmit(w, s, o, nonce, Emit(w.aead, s.serverKeys, o, resolves, nonce, stale)).serverKeys ==
            if resolves then r.keys else s.serverKeys
  {
  }

  /** Only the server's answers and emissions and its restart touch its table. */
  lemma OtherStepsStore(w: World, s: State, step: Step)
    requires Inv(w, s) && Enabled(w, s, step)
    requires !step.ServerAnswer? && !step.ServerEmit? && step != Restart(w.server)
    ensures Do(w, s, step).serverKeys == s.serverKeys
  {
    if IsSend(step) {
      assert ClientOk(w, s, step.c);
      SendStepOnly(w, s, step);
    } else if step.ClientReceive? {
      ClientReceiveOnly(w, s, step.d, step.pooled);
    }
  }

  lemma TableHears(w: World, s: State, t: Taken, keys: Keys, x: string, life: Option<nat>)
    requires HasLife(w, s.serverKeys, x, life)
    requires keys == if t.p.None? || Get(t.d.meta, KEY_TARGET) != TARGET_KEX_SERVER then s.serverKeys
                     else Install(w.group, ServerEnv(w, s).scalar, s.serverKeys, t.d.from.addr, Pub(w, t.d.from), false)
    ensures HasLife(w, keys, x, if HeardIn(t, x).Some? then HeardIn(t, x) else life)
  {
  }

  lemma EmitHears(w: World, s: State, o: Outgoing, resolves: bool, nonce: Bytes, stale: string, x: string,
                  life: Option<nat>)
    requires Inv(w, s) && HasLife(w, s.serverKeys, x, life) && |nonce| == NONCE_SIZE && o in s.queue
    ensures HasLife(w, Do(w, s, ServerEmit(o, resolves, nonce, stale)).serverKeys, x, life)
  {
    EmitKeepsPoints(w, s, o, resolves, nonce, stale);
  }

  lemma StepStores(w: World, s: State, step: Step, x: string, life: Option<nat>)
    requires Inv(w, s) && HasLife(w, s.serverKeys, x, life)
    ensures HasLife(w, Do(w, s, step).serverKeys, x,
                    if step == Restart(w.server) then None
                    else if Heard(w, s, step, x).Some? then Heard(w, s, step, x) else life)
  {
    if Enabled(w, s, step) {
      if step.ServerAnswer? {
        AnswerStores(w, s, step.t, step.stale);
        TableHears(w, s, step.t, AfterAnswer(w, s, step.t, step.stale).serverKeys, x, life);
      } else if step.ServerEmit? {
        EmitHears(w, s, step.o, step.resolves, step.nonce, step.stale, x, life);
      } else if step != Restart(w.server) {
        OtherStepsStore(w, s, step);
      }
    }
  }

  /** What the server's point for an address is, in every run: that of the life whose request was answered last, which
    need not be the one that sent last; and there is one exactly if a request was answered since the server's last
    start. */
  lemma {:induction false} ServerPoint(w: World, steps: seq<Step>, x: string)
    requires Sound(w)
    ensures var s, life := After(w, steps), LastHeard(w, steps, x);
            && (x in s.serverKeys <==> life.Some?)
            && (x in s.serverKeys ==> s.serverKeys[x].public == Pub(w, Party(x, life.value)))
  {
    if steps != [] {
      var before, last := steps[..|steps| - 1], steps[|steps| - 1];
      ServerPoint(w, before, x);
      ReachableOk(w, before);
      StepStores(w, After(w, before), last, x, LastHeard(w, before, x));
    }
  }

  // ---------- what clients are told ----------

  /** The server answers a request of `who` for the key of `addr`. */
  predicate AnswersRequest(w: World, s: State, step: Step, ref: string, who: Party, addr: string) {
    && step.ServerAnswer? && Enabled(w, s, step) && step.t.p.Some?
    && Get(step.t.d.meta, KEY_TARGET) == TARGET_KEX_CLIENT && Get(step.t.d.meta, KEY_REF) == ref
    && step.t.d.from == who && step.t.d.text == Base64.Encode(PrintAddr(addr))
  }

  /** The text left in the pooled packet that an error packet made in this step would use. */
  function LeftOver(step: Step): string {
    if step.ServerAnswer? || step.ServerEmit? then step.stale else ""
  }

  /** A packet's text read as a public key. */
  function TextReading(w: World, text: string): KeyReading {
    match Base64.Decode(text)
    case None => NoKey
    case Some(b) => ReadingOf(w, b)
  }

  /** What the server said to a request for the key of `addr`: the point it had when it answered in step `i`; or, if it
    had none, an error packet with the text left over in that step or in a later one that reported the error again. */
  predicate Told(w: World, steps: seq<Step>, i: int, k: int, ref: string, who: Party, addr: string, m: Meta,
                 text: string) {
    && 0 <= i <= k < |steps| && AnswersRequest(w, After(w, steps[..i]), steps[i], ref, who, addr)
    && var t := After(w, steps[..i]);
       if addr in t.serverKeys then Exempt(m) && text == Base64.Encode(PrintKey(t.serverKeys[addr].public))
       else !Exempt(m) && text == LeftOver(steps[k])
  }

  ghost predicate ToldOnce(w: World, steps: seq<Step>, ref: string, who: Party, addr: string, m: Meta, text: string) {
    exists i, k :: Told(w, steps, i, k, ref, who, addr, m, text)
  }

  /** A packet with the reference of a request for a client's key is what the server said to that request. */
  ghost predicate AnswersTold(w: World, steps: seq<Step>, asked: map<string, Ask>, m: Meta, text: string) {
    var ref := Get(m, KEY_REF);
    ref in asked && asked[ref].what.ClientKey? ==>
      ToldOnce(w, steps, ref, asked[ref].who, asked[ref].what.addr, m, text)
  }

  ghost predicate AllTold(w: World, steps: seq<Step>, s: State) {
    && (forall o :: o in s.queue ==> AnswersTold(w, steps, s.asked, o.meta, o.text))
    && (forall d :: d in s.net && d.from.addr == w.server ==> AnswersTold(w, steps, s.asked, d.meta, d.text))
  }

  lemma ToldStays(w: World, steps: seq<Step>, ref: string, who: Party, addr: string, m: Meta, text: string)
    requires steps != [] && ToldOnce(w, steps[..|steps| - 1], ref, who, addr, m, text)
    ensures ToldOnce(w, steps, ref, who, addr, m, text)
  {
    var before := steps[..|steps| - 1];
    var i, k :| Told(w, before, i, k, ref, who, addr, m, text);
    assert before[..i] == steps[..i] && before[i] == steps[i] && before[k] == steps[k];
    assert Told(w, steps, i, k, ref, who, addr, m, text);
  }

  /** What was said of a packet stays so when more requests are made. */
  lemma AnswerStays(w: World, steps: seq<Step>, s: State, s': State, m: Meta, text: string)
    requires steps != [] && Grows(w, s, s') && KEY_REF in m && m[KEY_REF] in s.used
    requires AnswersTold(w, steps[..|steps| - 1], s.asked, m, text)
    ensures AnswersTold(w, steps, s'.asked, m, text)
  {
    var ref := m[KEY_REF];
    if ref in s'.asked && s'.asked[ref].what.ClientKey? {
      assert ref in s.asked && SameAsk(s'.asked[ref], s.asked[ref]);
      ToldStays(w, steps, ref, s.asked[ref].who, s.asked[ref].what.addr, m, text);
    }
  }

  /** The frame: a step adds at most one packet to the queue and, as the server, one datagram. */
  lemma ToldKeeps(w: World, steps: seq<Step>, s: State, s': State)
    requires steps != [] && Inv(w, s) && Grows(w, s, s') && AllTold(w, steps[..|steps| - 1], s)
    requires forall o :: o in s'.queue && o !in s.queue ==> AnswersTold(w, steps, s'.asked, o.meta, o.text)
    requires forall d :: d in s'.net && d !in s.net && d.from.addr == w.server ==>
               AnswersTold(w, steps, s'.asked, d.meta, d.text)
    ensures AllTold(w, steps, s')
  {
    forall o | o in s'.queue
      ensures AnswersTold(w, steps, s'.asked, o.meta, o.text)
    {
      if o in s.queue {
        assert OutOk(w, s, Now(s, w.server), o.dest, o.meta, o.text);
        AnswerStays(w, steps, s, s', o.meta, o.text);
      }
    }
    forall d | d in s'.net && d.from.addr == w.server
      ensures AnswersTold(w, steps, s'.asked, d.meta, d.text)
    {
      if d in s.net {
        assert DatagramOk(w, s, d);
        AnswerStays(w, steps, s, s', d.meta, d.text);
      }
    }
  }

  lemma QueuedTold(w: World, steps: seq<Step>, s: State, s': State, o: Outgoing)
    requires steps != [] && Inv(w, s) && Grows(w, s, s') && AllTold(w, steps[..|steps| - 1], s)
    requires s'.net == s.net && s'.asked == s.asked && s'.queue == s.queue + multiset{o}
    requires AnswersTold(w, steps, s.asked, o.meta, o.text)
    ensures AllTold(w, steps, s')
  {
    ToldKeeps(w, steps, s, s');
  }

  /** The answer to a request for a client's key. */
  lemma DirectoryTold(w: World, steps: seq<Step>, s: State, t: Taken, stale: string)
    requires Inv(w, s) && t in s.held && t.p.Some? && Get(t.d.meta, KEY_TARGET) == TARGET_KEX_CLIENT
    requires steps != [] && s == After(w, steps[..|steps| - 1]) && steps[|steps| - 1] == ServerAnswer(t, stale)
    ensures var o := AnswerKexClient(ServerEnv(w, s), s.serverKeys, t.d.from.addr, t.p.value, stale).out;
            AnswersTold(w, steps, s.asked, o.meta, o.text)
  {
    assert HeldOk(w, s, t);
    KexClientContent(w, s, t.d);
    var ref, n, from := t.d.meta[KEY_REF], |steps| - 1, t.d.from.addr;
    var addr, o := s.asked[ref].what.addr, AnswerKexClient(ServerEnv(w, s), s.serverKeys, from, t.p.value, stale).out;
    if addr in s.serverKeys {
      KeyReplyExempt(ref, from, s.serverKeys[addr].public);
    } else {
      ErrOutNotExempt(ref, from, "packet pipeline error: " + "client non-existent", stale);
    }
    assert Told(w, steps, n, n, ref, t.d.from, addr, o.meta, o.text);
  }

  lemma ReplyTold(w: World, steps: seq<Step>, s: State, t: Taken, stale: string)
    requires Inv(w, s) && t in s.held
    requires steps != [] && s == After(w, steps[..|steps| - 1]) && steps[|steps| - 1] == ServerAnswer(t, stale)
    ensures var o := Handle(ServerEnv(w, s), s.serverKeys, t.d.from.addr, t.p, stale).out;
            AnswersTold(w, steps, s.asked, o.meta, o.text)
  {
    assert HeldOk(w, s, t);
    assert DatagramOk(w, s, t.d);
    ReplyAddressed(ServerEnv(w, s), s.serverKeys, t.d.from.addr, t.p, stale);
    DistinctTargets();
    if t.p.Some? && Get(t.d.meta, KEY_TARGET) == TARGET_KEX_CLIENT {
      DirectoryTold(w, steps, s, t, stale);
    }
  }

  lemma AnswerAdds(w: World, s: State, t: Taken, stale: string)
    ensures var s' := AfterAnswer(w, s, t, stale);
            && s'.net == s.net && s'.asked == s.asked
            && s'.queue == s.queue + multiset{Handle(ServerEnv(w, s), s.serverKeys, t.d.from.addr, t.p, stale).out}
  {
  }

  lemma AnswerTold(w: World, steps: seq<Step>, s: State, t: Taken, stale: string)
    requires Inv(w, s) && t in s.held && steps != [] && AllTold(w, steps[..|steps| - 1], s)
    requires s == After(w, steps[..|steps| - 1]) && steps[|steps| - 1] == ServerAnswer(t, stale)
    ensures AllTold(w, steps, AfterAnswer(w, s, t, stale))
  {
    ReplyTold(w, steps, s, t, stale);
    AnswerAdds(w, s, t, stale);
    AnswerGrows(w, s, t, stale);
    var o := Handle(ServerEnv(w, s), s.serverKeys, t.d.from.addr, t.p, stale).out;
    QueuedTold(w, steps, s, AfterAnswer(w, s, t, stale), o);
  }

  /** The report of an error bears what the packet it reports on was said to, with the text left over now. */
  lemma ReportTold(w: World, steps: seq<Step>, asked: map<string, Ask>, o: Outgoing, err: string, stale: string)
    requires steps != [] && steps[|steps| - 1].ServerEmit? && steps[|steps| - 1].stale == stale
    requires AnswersTold(w, steps[..|steps| - 1], asked, o.meta, o.text) && !Exempt(o.meta)
    ensures var e := PipelineError(o, err, stale); AnswersTold(w, steps, asked, e.meta, e.text)
  {
    var e, ref, before := PipelineError(o, err, stale), Get(o.meta, KEY_REF), steps[..|steps| - 1];
    ErrOutNotExempt(ref, o.dest, "pipeline error: " + ("pipeline terminated: " + err), stale);
    if ref in asked && asked[ref].what.ClientKey? {
      var who, addr := asked[ref].who, asked[ref].what.addr;
      var i, k :| Told(w, before, i, k, ref, who, addr, o.meta, o.text);
      assert before[..i] == steps[..i] && before[i] == steps[i];
      assert Told(w, steps, i, |steps| - 1, ref, who, addr, e.meta, e.text);
    }
  }

  /** What an emission can add: the packet itself as a datagram, or the report that it could not be sealed. */
  lemma EmitAdds(w: World, s: State, o: Outgoing, resolves: bool, nonce: Bytes, stale: string)
    ensures var x := Emit(w.aead, s.serverKeys, o, resolves, nonce, stale);
            var s' := AfterEmit(w, s, o, nonce, x);
            && s' == s.(serverKeys := s'.serverKeys, queue := s'.queue, net := s'.net)
            && (forall d :: d in s'.net && d !in s.net ==>
                  d.from == Now(s, w.server) && d.meta == o.meta && d.text == o.text)
            && (forall q :: q in s'.queue && q !in s.queue ==>
                  !Exempt(o.meta) && exists err :: q == PipelineError(o, err, stale))
  {
  }

  lemma EmitTold(w: World, steps: seq<Step>, s: State, o: Outgoing, resolves: bool, nonce: Bytes, stale: string)
    requires Inv(w, s) && steps != [] && s == After(w, steps[..|steps| - 1])
    requires steps[|steps| - 1] == ServerEmit(o, resolves, nonce, stale) && o in s.queue
    requires AllTold(w, steps[..|steps| - 1], s)
    ensures AllTold(w, steps, AfterEmit(w, s, o, nonce, Emit(w.aead, s.serverKeys, o, resolves, nonce, stale)))
  {
    var s' := AfterEmit(w, s, o, nonce, Emit(w.aead, s.serverKeys, o, resolves, nonce, stale));
    EmitAdds(w, s, o, resolves, nonce, stale);
    EmitGrows(w, s, o, resolves, nonce, stale);
    assert OutOk(w, s, Now(s, w.server), o.dest, o.meta, o.text);
    AnswerStays(w, steps, s, s, o.meta, o.text);
    forall q | q in s'.queue && q !in s.queue
      ensures AnswersTold(w, steps, s'.asked, q.meta, q.text)
    {
      var err :| q == PipelineError(o, err, stale);
      ReportTold(w, steps, s.asked, o, err, stale);
    }
    ToldKeeps(w, steps, s, s');
  }

  lemma SendsAsClient(w: World, s: State, step: Step)
    requires Inv(w, s) && IsSend(step) && Enabled(w, s, step)
    ensures var s' := DoSend(w, s, step);
            s'.queue == s.queue && forall d :: d in s'.net && d !in s.net ==> d.from.addr != w.server
  {
    assert ClientOk(w, s, step.c);
    SendStepOnly(w, s, step);
  }

  /** Other steps add nothing to the queue and send nothing in the server's name. */
  lemma OthersSendNothing(w: World, s: State, step: Step)
    requires Inv(w, s) && !step.ServerAnswer? && !step.ServerEmit?
    ensures var s' := Do(w, s, step);
            && s'.queue <= s.queue && (step != Restart(w.server) ==> s'.queue == s.queue)
            && forall d :: d in s'.net && d !in s.net ==> d.from.addr != w.server
  {
    if Enabled(w, s, step) {
      if IsSend(step) {
        SendsAsClient(w, s, step);
      } else if step.ClientReceive? {
        ClientReceiveOnly(w, s, step.d, step.pooled);
      }
    }
  }

  lemma StepTold(w: World, steps: seq<Step>, s: State, step: Step)
    requires Inv(w, s) && steps != [] && s == After(w, steps[..|steps| - 1])
    requires step == steps[|steps| - 1] && AllTold(w, steps[..|steps| - 1], s)
    ensures AllTold(w, steps, Do(w, s, step))
  {
    if Enabled(w, s, step) && step.ServerAnswer? {
      AnswerTold(w, steps, s, step.t, step.stale);
    } else if Enabled(w, s, step) && step.ServerEmit? {
      EmitTold(w, steps, s, step.o, step.resolves, step.nonce, step.stale);
    } else {
      StepGrows(w, s, step);
      if !step.ServerAnswer? && !step.ServerEmit? {
        OthersSendNothing(w, s, step);
      }
      ToldKeeps(w, steps, s, Do(w, s, step));
    }
  }

  lemma {:induction false} RunTold(w: World, steps: seq<Step>)
    requires Sound(w)
    ensures AllTold(w, steps, After(w, steps))
  {
    if steps != [] {
      var before := steps[..|steps| - 1];
      RunTold(w, before);
      ReachableOk(w, before);
      StepTold(w, steps, After(w, before), steps[|steps| - 1]);
    }
  }

  // ---------- what clients take in ----------

  /** The packet that this step makes the client process as the answer to one of its requests. */
  function TakesIn(w: World, s: State, step: Step, c: string): Option<Received> {
    if step.ClientReceive? && Enabled(w, s, step) && step.d.to == c then
      var p := Receive(step.pooled, ClientOpen(w, ClientOf(s, c), step.d.wire), Reject);
      if p.Some? && Awaits(s, c, Ref(p.value)) then p else None
    else None
  }

  /** The point that the step makes the client store under an address, if it does. */
  function Stores(w: World, s: State, step: Step, c: string, y: string): Option<Point> {
    match TakesIn(w, s, step, c)
    case None => None
    case Some(p) =>
      if Owner(w, s.asked[Ref(p)].what) == y && ReadingOf(w, p.data).Complete? then Some(ReadingOf(w, p.data).pub)
      else None
  }

  /** The step ends the client's program. */
  predicate Ends(w: World, s: State, step: Step, c: string) {
    var p := TakesIn(w, s, step, c);
    p.Some? && ReadingOf(w, p.value.data).Incomplete?
  }

  /** The step in which this life of the client last stored a point under the address. */
  function LastStored(w: World, steps: seq<Step>, c: string, y: string): Option<nat> {
    if steps == [] then None
    else
      var before, last := steps[..|steps| - 1], steps[|steps| - 1];
      if last == Restart(c) then None
      else if Stores(w, After(w, before), last, c, y).Some? then Some(|before|)
      else LastStored(w, before, c, y)
  }

  /** The step that ended this life of the client. */
  function EndedIn(w: World, steps: seq<Step>, c: string): Option<nat> {
    if steps == [] then None
    else
      var before, last := steps[..|steps| - 1], steps[|steps| - 1];
      if last == Restart(c) then None
      else if Ends(w, After(w, before), last, c) then Some(|before|)
      else EndedIn(w, before, c)
  }

  /** What taking in an answer does to a client. */
  lemma LearnIs(w: World, s: State, c: string, p: Received)
    requires Awaits(s, c, Ref(p))
    ensures var cl, cl' := ClientOf(s, c), ClientOf(Learn(w, s, c, Some(p)), c);
            && cl'.keys == (match ReadingOf(w, p.data)
                            case Complete(pub) =>
                              var addr := Owner(w, s.asked[Ref(p)].what);
                              Install(w.group, w.scalar(Now(s, c)), cl.keys, addr, pub, true)
                            case _ => cl.keys)
            && (cl'.ended <==> cl.ended || ReadingOf(w, p.data).Incomplete?)
  {
  }

  lemma SendsLearn(w: World, s: State, step: Step, c: string)
    requires Inv(w, s) && IsSend(step) && Enabled(w, s, step)
    ensures ClientOf(DoSend(w, s, step), c) == ClientOf(s, c)
  {
    assert ClientOk(w, s, step.c);
    SendStepOnly(w, s, step);
  }

  lemma ReceivesLearn(w: World, s: State, d: Datagram, pooled: PktState, c: string)
    requires Enabled(w, s, ClientReceive(d, pooled)) && TakesIn(w, s, ClientReceive(d, pooled), c).None?
    ensures ClientOf(Do(w, s, ClientReceive(d, pooled)), c) == ClientOf(s, c)
  {
    if d.to != c {
      ClientReceiveOnly(w, s, d, pooled);
    }
  }

  lemma LocalLearns(w: World, s: State, step: Step, c: string)
    requires step.Extend? || (step.Restart? && step.x != c)
    ensures var cl, cl' := ClientOf(s, c), ClientOf(Do(w, s, step), c); cl' == cl.(extended := cl'.extended)
  {
  }

  lemma ServerLearns(w: World, s: State, step: Step, c: string)
    requires step.ServerOpen? || step.ServerAnswer? || step.ServerEmit?
    ensures ClientOf(Do(w, s, step), c) == ClientOf(s, c)
  {
    ServerStepOnly(w, s, step);
  }

  /** A step that gives the client no answer stores nothing at it and does not end it. */
  lemma OthersLearnNothing(w: World, s: State, step: Step, c: string)
    requires Inv(w, s) && step != Restart(c) && TakesIn(w, s, step, c).None?
    ensures var cl, cl' := ClientOf(s, c), ClientOf(Do(w, s, step), c); cl' == cl.(extended := cl'.extended)
  {
    if Enabled(w, s, step) {
      if step.ServerOpen? || step.ServerAnswer? || step.ServerEmit? {
        ServerLearns(w, s, step, c);
      } else if IsSend(step) {
        SendsLearn(w, s, step, c);
      } else if step.ClientReceive? {
        ReceivesLearn(w, s, step.d, step.pooled, c);
      } else {
        LocalLearns(w, s, step, c);
      }
    }
  }

  lemma TakingLearns(w: World, s: State, step: Step, c: string)
    requires TakesIn(w, s, step, c).Some?
    ensures Do(w, s, step) == Learn(w, s, c, TakesIn(w, s, step, c))
  {
  }

  /** What a step does to a client: it stores what it is to store, and ends it if it is to. */
  lemma StepLearns(w: World, s: State, step: Step, c: string, y: string)
    requires Inv(w, s) && step != Restart(c)
    ensures var cl, cl' := ClientOf(s, c), ClientOf(Do(w, s, step), c);
            && (match Stores(w, s, step, c, y)
                case Some(pub) => y in cl'.keys && cl'.keys[y].public == pub
                case None => (y in cl'.keys <==> y in cl.keys) && (y in cl.keys ==> cl'.keys[y] == cl.keys[y]))
            && (cl'.ended <==> cl.ended || Ends(w, s, step, c))
  {
    match TakesIn(w, s, step, c)
    case None => OthersLearnNothing(w, s, step, c);
    case Some(p) =>
      TakingLearns(w, s, step, c);
      LearnIs(w, s, c, p);
  }

  /** The client has the point that was stored in step `n` and has been the same since. */
  predicate HasStored(w: World, steps: seq<Step>, s: State, c: string, y: string, n: Option<nat>) {
    && (y in ClientOf(s, c).keys <==> n.Some?)
    && (n.Some? ==>
          && n.value < |steps|
          && var t := After(w, steps[..n.value]);
             Now(t, c) == Now(s, c) && Stores(w, t, steps[n.value], c, y) == Some(ClientOf(s, c).keys[y].public))
  }

  lemma StoredStays(w: World, steps: seq<Step>, s: State, s': State, c: string, y: string, n: Option<nat>)
    requires steps != [] && HasStored(w, steps[..|steps| - 1], s, c, y, n) && Now(s', c) == Now(s, c)
    requires y in ClientOf(s', c).keys <==> y in ClientOf(s, c).keys
    requires y in ClientOf(s, c).keys ==> ClientOf(s', c).keys[y] == ClientOf(s, c).keys[y]
    ensures HasStored(w, steps, s', c, y, n)
  {
    if n.Some? {
      var before := steps[..|steps| - 1];
      assert before[..n.value] == steps[..n.value] && before[n.value] == steps[n.value];
    }
  }

  lemma StepHasStored(w: World, steps: seq<Step>, s: State, step: Step, c: string, y: string, n: Option<nat>)
    requires Inv(w, s) && c != w.server && steps != [] && s == After(w, steps[..|steps| - 1])
    requires step == steps[|steps| - 1] && step != Restart(c) && HasStored(w, steps[..|steps| - 1], s, c, y, n)
    ensures HasStored(w, steps, Do(w, s, step), c, y,
                      if Stores(w, s, step, c, y).Some? then Some(|steps| - 1) else n)
  {
    LifeStays(w, s, step, c);
    StepLearns(w, s, step, c, y);
    if Stores(w, s, step, c, y).None? {
      StoredStays(w, steps, s, Do(w, s, step), c, y, n);
    }
  }

  lemma SendLives(w: World, s: State, step: Step)
    requires Inv(w, s) && IsSend(step) && Enabled(w, s, step)
    ensures DoSend(w, s, step).lives == s.lives
  {
    assert ClientOk(w, s, step.c);
    SendStepOnly(w, s, step);
  }

  lemma ServerLives(w: World, s: State, step: Step)
    requires step.ServerOpen? || step.ServerAnswer? || step.ServerEmit?
    ensures Do(w, s, step).lives == s.lives
  {
    ServerStepOnly(w, s, step);
  }

  lemma ReceiptLives(w: World, s: State, d: Datagram, pooled: PktState)
    requires Enabled(w, s, ClientReceive(d, pooled))
    ensures Do(w, s, ClientReceive(d, pooled)).lives == s.lives
  {
    ClientReceiveOnly(w, s, d, pooled);
  }

  lemma LifeStays(w: World, s: State, step: Step, x: string)
    requires Inv(w, s) && step != Restart(x)
    ensures Now(Do(w, s, step), x) == Now(s, x)
  {
    if step.ServerOpen? || step.ServerAnswer? || step.ServerEmit? {
      ServerLives(w, s, step);
    } else if Enabled(w, s, step) {
      if step.ClientReceive? {
        ReceiptLives(w, s, step.d, step.pooled);
      } else if IsSend(step) {
        SendLives(w, s, step);
      }
    }
  }

  /** Which of its requests decides what a client has for an address, in every run: the one whose answer this life of
    the client stored last; and it has a point exactly if there was one. */
  lemma {:induction false} ClientPoint(w: World, steps: seq<Step>, c: string, y: string)
    requires Sound(w) && c != w.server
    ensures HasStored(w, steps, After(w, steps), c, y, LastStored(w, steps, c, y))
  {
    if steps != [] {
      var before, last := steps[..|steps| - 1], steps[|steps| - 1];
      ClientPoint(w, before, c, y);
      ReachableOk(w, before);
      if last != Restart(c) {
        StepHasStored(w, steps, After(w, before), last, c, y, LastStored(w, before, c, y));
      }
    }
  }

  lemma TakesInIs(w: World, s: State, step: Step, c: string)
    requires TakesIn(w, s, step, c).Some?
    ensures step.ClientReceive? && step.d in s.net && step.d.to == c && c != w.server
  {
  }

  /** What the client takes in from the server was said to a request of its own. */
  lemma TakenWasTold(w: World, steps: seq<Step>, step: Step, c: string) returns (i: nat, k: nat)
    requires Sound(w)
    requires var s := After(w, steps);
             var p := TakesIn(w, s, step, c);
             p.Some? && (s.asked[Ref(p.value)].what.ClientKey? || !ReadingOf(w, p.value.data).Complete?)
    ensures var s := After(w, steps);
            var p := TakesIn(w, s, step, c).value;
            && s.asked[Ref(p)].what.ClientKey? && ReadingOf(w, p.data) == TextReading(w, step.d.text)
            && Told(w, steps, i, k, Ref(p), Now(s, c), s.asked[Ref(p)].what.addr, step.d.meta, step.d.text)
  {
    var s := After(w, steps);
    ReachableOk(w, steps);
    RunTold(w, steps);
    TakesInIs(w, s, step, c);
    ClientRecovers(w, s, step.d, step.pooled);
    var p := TakesIn(w, s, step, c).value;
    assert DatagramOk(w, s, step.d);
    if s.asked[Ref(p)].what.ServerKey? {
      AnswerBrings(w, s, step.d, p);
    }
    i, k :| Told(w, steps, i, k, Ref(p), Now(s, c), s.asked[Ref(p)].what.addr, step.d.meta, step.d.text);
  }

  lemma Prefixes(steps: seq<Step>, n: nat, i: nat, k: nat)
    requires i <= k < n <= |steps|
    ensures steps[..n][..i] == steps[..i] && steps[..n][i] == steps[i] && steps[..n][k] == steps[k]
  {
  }

  /** Where a point that a step stores for another client comes from. */
  lemma StoresWhy(w: World, steps: seq<Step>, step: Step, c: string, y: string) returns (i: nat, k: nat, ref: string)
    requires Sound(w) && y != w.server && Stores(w, After(w, steps), step, c, y).Some?
    ensures i <= k < |steps| && Ref(TakesIn(w, After(w, steps), step, c).value) == ref
    ensures var s, t := After(w, steps), After(w, steps[..i]);
            var pub, life := Stores(w, s, step, c, y).value, LastHeard(w, steps[..i], y);
            && AnswersRequest(w, t, steps[i], ref, Now(s, c), y)
            && (y in t.serverKeys <==> life.Some?)
            && (if life.Some? then pub == Pub(w, Party(y, life.value))
                else TextReading(w, LeftOver(steps[k])) == Complete(pub))
  {
    ref := Ref(TakesIn(w, After(w, steps), step, c).value);
    i, k := TakenWasTold(w, steps, step, c);
    ServerPoint(w, steps[..i], y);
    if y in After(w, steps[..i]).serverKeys {
      KeyContent(step.d.meta, After(w, steps[..i]).serverKeys[y].public);
    }
  }

  /** What a client's point for another client is, in every run. The answer that decides is the one this life of the
    client stored last, in step `n`. It was given in step `i` to the request with its reference. If the server then had
    a key for the address, the point is that of the life of the address which the server had heard last; if not, the
    request was refused and the point is what the text left over in the error packet said. So the point is the current
    one of the address exactly if that life, or that text, has it. */
  lemma PeerPoint(w: World, steps: seq<Step>, c: string, y: string) returns (n: nat, i: nat, k: nat, ref: string)
    requires Sound(w) && c != w.server && y != w.server && y in ClientOf(After(w, steps), c).keys
    ensures LastStored(w, steps, c, y) == Some(n) && i <= k < n < |steps|
    ensures var p := TakesIn(w, After(w, steps[..n]), steps[n], c); p.Some? && Ref(p.value) == ref
    ensures var s, t := After(w, steps), After(w, steps[..i]);
            var pub, life := ClientOf(s, c).keys[y].public, LastHeard(w, steps[..i], y);
            && AnswersRequest(w, t, steps[i], ref, Now(s, c), y)
            && (y in t.serverKeys <==> life.Some?)
            && (if life.Some? then pub == Pub(w, Party(y, life.value))
                else TextReading(w, LeftOver(steps[k])) == Complete(pub))
            && (pub == Pub(w, Now(s, y)) <==>
                  if life.Some? then Pub(w, Party(y, life.value)) == Pub(w, Now(s, y))
                  else TextReading(w, LeftOver(steps[k])) == Complete(Pub(w, Now(s, y))))
  {
    ClientPoint(w, steps, c, y);
    n := LastStored(w, steps, c, y).value;
    var pre := steps[..n];
    i, k, ref := StoresWhy(w, pre, steps[n], c, y);
    Prefixes(steps, n, i, k);
  }

  /** When a client's program has ended, in every run: exactly if this life of it took in, in some step `n`, an answer
    that reads as an object without both coordinates. */
  lemma {:induction false} EndedExactly(w: World, steps: seq<Step>, c: string)
    requires Sound(w) && c != w.server
    ensures ClientOf(After(w, steps), c).ended <==> EndedIn(w, steps, c).Some?
  {
    if steps != [] {
      var before, last := steps[..|steps| - 1], steps[|steps| - 1];
      EndedExactly(w, before, c);
      ReachableOk(w, before);
      if last != Restart(c) {
        StepLearns(w, After(w, before), last, c, "");
      }
    }
  }

  lemma {:induction false} EndedInEnds(w: World, steps: seq<Step>, c: string)
    requires EndedIn(w, steps, c).Some?
    ensures var n := EndedIn(w, steps, c).value; n < |steps| && Ends(w, After(w, steps[..n]), steps[n], c)
  {
    var before := steps[..|steps| - 1];
    if !Ends(w, After(w, before), steps[|steps| - 1], c) {
      EndedInEnds(w, before, c);
      var n := EndedIn(w, before, c).value;
      assert before[..n] == steps[..n] && before[n] == steps[n];
    }
  }

  lemma EndsWhy(w: World, steps: seq<Step>, step: Step, c: string)
    returns (i: nat, k: nat, ref: string, addr: string)
    requires Sound(w) && Ends(w, After(w, steps), step, c)
    ensures i <= k < |steps|
    ensures var t := After(w, steps[..i]);
            && AnswersRequest(w, t, steps[i], ref, Now(After(w, steps), c), addr) && addr !in t.serverKeys
            && TextReading(w, LeftOver(steps[k])) == Incomplete
  {
    var s := After(w, steps);
    var p := TakesIn(w, s, step, c).value;
    i, k := TakenWasTold(w, steps, step, c);
    ref, addr := Ref(p), s.asked[Ref(p)].what.addr;
    if addr in After(w, steps[..i]).serverKeys {
      KeyContent(step.d.meta, After(w, steps[..i]).serverKeys[addr].public);
    }
  }

  /** Why a client's program has ended, in every run: its request for the key of an address was refused in step `i`,
    because the server had none, and the text left over in the error packet reads as an object without both
    coordinates. */
  lemma WhyEnded(w: World, steps: seq<Step>, c: string) returns (n: nat, i: nat, k: nat, ref: string, addr: string)
    requires Sound(w) && c != w.server && ClientOf(After(w, steps), c).ended
    ensures EndedIn(w, steps, c) == Some(n) && i <= k < n < |steps|
    ensures var t := After(w, steps[..i]);
            && AnswersRequest(w, t, steps[i], ref, Now(After(w, steps[..n]), c), addr) && addr !in t.serverKeys
            && TextReading(w, LeftOver(steps[k])) == Incomplete
  {
    EndedExactly(w, steps, c);
    EndedInEnds(w, steps, c);
    n := EndedIn(w, steps, c).value;
    var pre := steps[..n];
    i, k, ref, addr := EndsWhy(w, pre, steps[n], c);
    Prefixes(steps, n, i, k);
  }

  // ---------- answers are taken in once ----------

  predicate ClosedRef(s: State, ref: string) {
    ref in s.asked && !s.asked[ref].open
  }

  lemma LearnCloses(w: World, s: State, c: string, p: Option<Received>, ref: string)
    ensures ClosedRef(s, ref) ==> ClosedRef(Learn(w, s, c, p), ref)
    ensures p.Some? && Awaits(s, c, Ref(p.value)) ==> ClosedRef(Learn(w, s, c, p), Ref(p.value))
  {
  }

  lemma SendStaysClosed(w: World, s: State, step: Step, ref: string)
    requires Inv(w, s) && IsSend(step) && Enabled(w, s, step) && ClosedRef(s, ref)
    ensures ClosedRef(DoSend(w, s, step), ref)
  {
    assert ClientOk(w, s, step.c) && AskOk(w, s, ref);
    SendStepOnly(w, s, step);
  }

  lemma ServerStaysClosed(w: World, s: State, step: Step, ref: string)
    requires (step.ServerOpen? || step.ServerAnswer? || step.ServerEmit?) && ClosedRef(s, ref)
    ensures ClosedRef(Do(w, s, step), ref)
  {
    ServerStepOnly(w, s, step);
  }

  lemma ReceiptStaysClosed(w: World, s: State, d: Datagram, pooled: PktState, ref: string)
    requires Enabled(w, s, ClientReceive(d, pooled)) && ClosedRef(s, ref)
    ensures ClosedRef(Do(w, s, ClientReceive(d, pooled)), ref)
  {
    LearnCloses(w, s, d.to, Receive(pooled, ClientOpen(w, ClientOf(s, d.to), d.wire), Reject), ref);
  }

  lemma StaysClosed(w: World, s: State, step: Step, ref: string)
    requires Inv(w, s) && ClosedRef(s, ref)
    ensures ClosedRef(Do(w, s, step), ref)
  {
    if step.ServerOpen? || step.ServerAnswer? || step.ServerEmit? {
      ServerStaysClosed(w, s, step, ref);
    } else if Enabled(w, s, step) {
      if IsSend(step) {
        SendStaysClosed(w, s, step, ref);
      } else if step.ClientReceive? {
        ReceiptStaysClosed(w, s, step.d, step.pooled, ref);
      }
    }
  }

  lemma TakingCloses(w: World, s: State, step: Step, c: string)
    requires TakesIn(w, s, step, c).Some?
    ensures ClosedRef(Do(w, s, step), Ref(TakesIn(w, s, step, c).value))
  {
    TakingLearns(w, s, step, c);
    LearnCloses(w, s, c, TakesIn(w, s, step, c), "");
  }

  lemma AfterNext(w: World, steps: seq<Step>, j: nat)
    requires j < |steps|
    ensures After(w, steps[..j + 1]) == Do(w, After(w, steps[..j]), steps[j])
  {
    assert steps[..j + 1][..j] == steps[..j];
  }

  lemma {:induction false} ClosedSince(w: World, steps: seq<Step>, i: nat, j: nat, ref: string)
    requires Sound(w) && i <= j <= |steps| && ClosedRef(After(w, steps[..i]), ref)
    ensures ClosedRef(After(w, steps[..j]), ref)
    decreases j
  {
    if i < j {
      ClosedSince(w, steps, i, j - 1, ref);
      ReachableOk(w, steps[..j - 1]);
      StaysClosed(w, After(w, steps[..j - 1]), steps[j - 1], ref);
      AfterNext(w, steps, j - 1);
    }
  }

  /** An answer is taken in at most once, in every run and whoever takes it in: no two steps take in packets with the
    same reference, however often the network repeats them. */
  lemma TakenOnce(w: World, steps: seq<Step>, i: nat, j: nat, c: string, c': string)
    requires Sound(w) && i < j < |steps|
    requires TakesIn(w, After(w, steps[..i]), steps[i], c).Some? && TakesIn(w, After(w, steps[..j]), steps[j], c').Some?
    ensures Ref(TakesIn(w, After(w, steps[..i]), steps[i], c).value) !=
            Ref(TakesIn(w, After(w, steps[..j]), steps[j], c').value)
  {
    var s := After(w, steps[..i]);
    TakingCloses(w, s, steps[i], c);
    AfterNext(w, steps, i);
    ClosedSince(w, steps, i + 1, j, Ref(TakesIn(w, s, steps[i], c).value));
  }

  // ---------- a new start ----------

  lemma ServerAnew(w: World, s: State)
    ensures var s', x := Restarted(w, s, w.server), w.server;
            && Now(s', x) == Party(x, Now(s, x).life + 1) && (forall y :: y != x ==> Now(s', y) == Now(s, y))
            && s'.serverKeys == map[] && s'.held == multiset{} && s'.queue == multiset{} && s'.clients == s.clients
            && s'.net == s.net && s'.asked == s.asked && s'.used == s.used
  {
  }

  lemma ClientAnew(w: World, s: State, x: string)
    requires x != w.server
    ensures var s' := Restarted(w, s, x);
            && Now(s', x) == Party(x, Now(s, x).life + 1) && (forall y :: y != x ==> Now(s', y) == Now(s, y))
            && ClientOf(s', x) == Client(map[], false, false)
            && (forall c :: c != x ==> ClientOf(s', c) == ClientOf(s, c))
            && s'.serverKeys == s.serverKeys && s'.held == s.held && s'.queue == s.queue
            && s'.net == s.net && s'.asked == s.asked && s'.used == s.used
  {
  }

  /** What a new start leaves: the next life of the address, without keys, and for the server nothing to answer and
    nothing to send; all that was sent is still on the network, and no one else is touched. */
  lemma StartsAnew(w: World, s: State, x: string)
    ensures var s' := Do(w, s, Restart(x));
            && Now(s', x) == Party(x, Now(s, x).life + 1) && (forall y :: y != x ==> Now(s', y) == Now(s, y))
            && s'.net == s.net && s'.asked == s.asked && s'.used == s.used
            && (if x == w.server then
                  s'.serverKeys == map[] && s'.held == multiset{} && s'.queue == multiset{} && s'.clients == s.clients
                else
                  && ClientOf(s', x) == Client(map[], false, false)
                  && (forall c :: c != x ==> ClientOf(s', c) == ClientOf(s, c))
                  && s'.serverKeys == s.serverKeys && s'.held == s.held && s'.queue == s.queue)
  {
    if x == w.server {
      ServerAnew(w, s);
    } else {
      ClientAnew(w, s, x);
    }
  }
}
