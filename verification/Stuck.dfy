/** What becomes of a destination whose key cannot seal, with everything else going on. */
module Stuck {
  import opened Bytes
  import opened Cipher
  import opened PacketState
  import opened Relay
  import opened Sealing
  import opened Protocol
  import opened Runs
  import opened Histories
  import opened Steady
  import Json

  /** The server is to seal what it sends to `c`, under a key without an AES length. */
  predicate Blocked(s: State, c: string) {
    c in s.serverKeys && s.serverKeys[c].keySent && !LegalKey(KeyBytes(s.serverKeys[c]))
  }

  /** The step installs no new store for `c`: the server answers no exchange request of it and does not start anew. */
  predicate NoNewStore(w: World, s: State, step: Step, c: string) {
    step != Restart(w.server) && Heard(w, s, step, c).None?
  }

  /** Every packet to `c` has an address that resolves. */
  predicate Resolves(step: Step, c: string) {
    step.ServerEmit? && step.o.dest == c ==> step.resolves
  }

  /** A packet to `c` with the reference, or an error report on it, is queued. */
  ghost predicate Waits(s: State, c: string, ref: string) {
    exists o :: o in s.queue && IsFor(o, c, ref)
  }

  predicate IsFor(o: Outgoing, c: string, ref: string) {
    o.dest == c && !Exempt(o.meta) && Get(o.meta, KEY_REF) == ref
  }

  lemma SealBlocked(a: Aead, keys: Keys, m: Meta, dest: string, nonce: Bytes, buff: Bytes, c: string)
    requires c in keys && keys[c].keySent && !LegalKey(KeyBytes(keys[c]))
    ensures var r := EncryptTransport(a, keys, m, dest, nonce, buff);
            && c in r.keys && r.keys[c] == keys[c]
            && (dest == c && !Exempt(m) ==> r.err.Some?)
  {
  }

  lemma EmitBlocked(w: World, s: State, o: Outgoing, resolves: bool, nonce: Bytes, stale: string, c: string)
    requires Blocked(s, c)
    ensures var s' := AfterEmit(w, s, o, nonce, Emit(w.aead, s.serverKeys, o, resolves, nonce, stale));
            && c in s'.serverKeys && s'.serverKeys[c] == s.serverKeys[c]
            && (o.dest == c && !Exempt(o.meta) ==> s'.net == s.net)
  {
    SealBlocked(w.aead, s.serverKeys, o.meta, o.dest, nonce, Json.Marshal(o.meta, o.text), c);
  }

  lemma AnswerBlocked(w: World, s: State, t: Taken, stale: string, c: string)
    requires Inv(w, s) && Blocked(s, c) && t in s.held && HeardIn(t, c).None?
    ensures var s' := AfterAnswer(w, s, t, stale);
            c in s'.serverKeys && s'.serverKeys[c] == s.serverKeys[c] && s'.net == s.net && s.queue <= s'.queue
  {
    AnswerStores(w, s, t, stale);
    AnswerAdds(w, s, t, stale);
  }

  /** What is new on the network is exempt if it goes from the server to `c`. */
  ghost predicate OnlyExempt(w: World, s: State, s': State, c: string) {
    forall d :: d in s'.net && d !in s.net && d.from.addr == w.server && d.to == c ==> Exempt(d.meta)
  }

  lemma StepBlocked(w: World, s: State, step: Step, c: string)
    requires Sound(w) && Inv(w, s) && Blocked(s, c) && NoNewStore(w, s, step, c)
    ensures var s' := Do(w, s, step);
            c in s'.serverKeys && s'.serverKeys[c] == s.serverKeys[c] && OnlyExempt(w, s, s', c)
  {
    if Enabled(w, s, step) {
      if step.ServerAnswer? {
        AnswerBlocked(w, s, step.t, step.stale, c);
      } else if step.ServerEmit? {
        EmitBlocked(w, s, step.o, step.resolves, step.nonce, step.stale, c);
        forall d | d in Do(w, s, step).net && d !in s.net
          ensures d.to == c ==> Exempt(d.meta)
        {
          NewEmitted(w, s, step.o, step.resolves, step.nonce, step.stale, d);
        }
      } else {
        OtherStepsStore(w, s, step);
        OthersSendNothing(w, s, step);
      }
    }
  }

  /** An emission of a packet to `c` replaces it by a report with its reference; no other emission removes it. */
  lemma EmitWaits(w: World, s: State, o: Outgoing, resolves: bool, nonce: Bytes, stale: string, c: string,
                  ref: string, q: Outgoing)
    requires Blocked(s, c) && o in s.queue && q in s.queue && IsFor(q, c, ref) && (o.dest == c ==> resolves)
    ensures Waits(AfterEmit(w, s, o, nonce, Emit(w.aead, s.serverKeys, o, resolves, nonce, stale)), c, ref)
  {
    var s' := AfterEmit(w, s, o, nonce, Emit(w.aead, s.serverKeys, o, resolves, nonce, stale));
    if o == q {
      var err := "encryption error: " + KeySizeError(KeyBytes(s.serverKeys[c]));
      var report := PipelineError(o, err, stale);
      ErrOutNotExempt(ref, c, "pipeline error: " + ("pipeline terminated: " + err), stale);
      assert report in s'.queue && IsFor(report, c, ref);
    } else {
      assert q in s'.queue;
    }
  }

  lemma StepWaits(w: World, s: State, step: Step, c: string, ref: string)
    requires Sound(w) && Inv(w, s) && Blocked(s, c) && NoNewStore(w, s, step, c) && Resolves(step, c)
    requires Waits(s, c, ref)
    ensures Waits(Do(w, s, step), c, ref)
  {
    if Enabled(w, s, step) {
      var q :| q in s.queue && IsFor(q, c, ref);
      if step.ServerEmit? {
        EmitWaits(w, s, step.o, step.resolves, step.nonce, step.stale, c, ref, q);
      } else if step.ServerAnswer? {
        AnswerBlocked(w, s, step.t, step.stale, c);
        assert q in Do(w, s, step).queue;
      } else {
        OthersSendNothing(w, s, step);
      }
    }
  }

  ghost predicate NoNewStores(w: World, s: State, steps: seq<Step>, c: string) {
    forall i :: 0 <= i < |steps| ==> NoNewStore(w, Exec(w, s, steps[..i]), steps[i], c) && Resolves(steps[i], c)
  }

  lemma NoNewStoresBefore(w: World, s: State, steps: seq<Step>, c: string)
    requires steps != [] && NoNewStores(w, s, steps, c)
    ensures NoNewStores(w, s, steps[..|steps| - 1], c)
    ensures NoNewStore(w, Exec(w, s, steps[..|steps| - 1]), steps[|steps| - 1], c) && Resolves(steps[|steps| - 1], c)
  {
    var before := steps[..|steps| - 1];
    forall i | 0 <= i < |before|
      ensures NoNewStore(w, Exec(w, s, before[..i]), before[i], c) && Resolves(before[i], c)
    {
      assert before[..i] == steps[..i];
    }
  }

  lemma {:induction false} RunBlocked(w: World, s: State, steps: seq<Step>, c: string, ref: string)
    requires Sound(w) && Inv(w, s) && Blocked(s, c) && NoNewStores(w, s, steps, c)
    ensures var s' := Exec(w, s, steps);
            Blocked(s', c) && OnlyExempt(w, s, s', c) && (Waits(s, c, ref) ==> Waits(s', c, ref))
  {
    if steps != [] {
      var before, last := steps[..|steps| - 1], steps[|steps| - 1];
      NoNewStoresBefore(w, s, steps, c);
      RunKeeps(w, s, before);
      RunBlocked(w, s, before, c, ref);
      StepBlocked(w, Exec(w, s, before), last, c);
      if Waits(s, c, ref) {
        StepWaits(w, Exec(w, s, before), last, c, ref);
      }
    }
  }

  /** The outgoing error chain with everything else going on. From any reachable state in which the server is to seal
    for `c` under a key without an AES length, and until a new store is installed for it: nothing but exempt packets
    reaches `c`, and a packet that is not exempt is reported on and queued again, with its reference, for ever. */
  lemma NothingReaches(w: World, pre: seq<Step>, steps: seq<Step>, c: string, ref: string)
    requires Sound(w) && Blocked(After(w, pre), c) && NoNewStores(w, After(w, pre), steps, c)
    ensures var s, s' := After(w, pre), After(w, pre + steps);
            && Blocked(s', c)
            && (forall d :: d in s'.net && d !in s.net && d.from.addr == w.server && d.to == c ==> Exempt(d.meta))
            && ((exists o :: o in s.queue && IsFor(o, c, ref)) ==> exists o :: o in s'.queue && IsFor(o, c, ref))
  {
    ReachableOk(w, pre);
    ExecSplit(w, Init(), pre, steps);
    RunBlocked(w, After(w, pre), steps, c, ref);
  }
}
