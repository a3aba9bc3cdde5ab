/** Where the data text of every packet that the server enqueues comes from, error packets included. */
module Leftovers {
  import opened Bytes
  import opened Curve
  import opened PacketState
  import opened Relay
  import opened Sealing
  import opened Lifecycle
  import opened Outcomes
  import Base64

  /** The step decodes a frame with this data text. */
  predicate Decodes(e: Env, s: Server, step: Step, text: string) {
    && step.Decode? && Enabled(s, step)
    && var p := s.routines[step.r];
       var o := Decoding(DecryptTransport(e.aead, p.keys, p.from, p.wire), step.other);
       o.Accept? && o.d == Some(text)
  }

  /** The step closes a packet with this data text: that of the data to forward, or of a public key. */
  predicate Closes(e: Env, s: Server, step: Step, text: string) {
    && step.Callback? && Enabled(s, step)
    && (|| text == Base64.Encode(s.heap[s.routines[step.r].pkt].buff)
        || text == Base64.Encode(PrintKey(PublicOf(e.group, e.scalar)))
        || exists a :: a in s.keys && text == Base64.Encode(PrintKey(s.keys[a].public)))
  }

  predicate Puts(e: Env, s: Server, step: Step, text: string) {
    Decodes(e, s, step, text) || Closes(e, s, step, text)
  }

  /** The text is empty, was in a packet at the start, or was decoded or closed in a step of the run. */
  ghost predicate Origin(e: Env, s: Server, steps: seq<Step>, text: string) {
    || text == ""
    || (exists id :: id in s.heap && s.heap[id].committed == text)
    || (exists i :: 0 <= i < |steps| && Puts(e, Exec(e, s, steps[..i]), steps[i], text))
  }

  lemma OriginStays(e: Env, s: Server, steps: seq<Step>, text: string)
    requires steps != [] && Origin(e, s, steps[..|steps| - 1], text)
    ensures Origin(e, s, steps, text)
  {
    var before := steps[..|steps| - 1];
    if i :| 0 <= i < |before| && Puts(e, Exec(e, s, before[..i]), before[i], text) {
      assert before[..i] == steps[..i] && before[i] == steps[i];
    }
  }

  /** A packet's text after a step: as before, empty because the packet is new, or put there by the step. */
  ghost predicate TextFrom(e: Env, s: Server, step: Step, id: Id, text: string) {
    Taken(s, id).committed == text || Puts(e, s, step, text)
  }

  lemma DecodeTexts(e: Env, s: Server, step: Step, id: Id)
    requires step.Decode? && Enabled(s, step) && id in Do(e, s, step).heap
    ensures TextFrom(e, s, step, id, Do(e, s, step).heap[id].committed)
  {
  }

  /** What a routine makes of the packet that the pool hands it, whatever that held before: an error packet has the text
    that was left in it, and a frame without data is decoded to that text. */
  lemma TextLeft(e: Env, s: Server, step: Step)
    requires Enabled(s, step) && (step.MakeError? || step.Decode?)
    ensures var s', was := Do(e, s, step), if step.id in s.heap then s.heap[step.id].committed else "";
            && step.id in s'.heap
            && (step.MakeError? ==>
                  s'.heap[step.id].committed == was && Get(s'.heap[step.id].meta, "_stat") == "-1")
            && (step.Decode? ==>
                  var p := s.routines[step.r];
                  match Decoding(DecryptTransport(e.aead, p.keys, p.from, p.wire), step.other)
                  case Accept(_, Some(d), _) => s'.heap[step.id].committed == d
                  case _ => s'.heap[step.id].committed == was)
  {
  }

  lemma RespondTexts(s: Server, r: nat, p: Phase, keys: Keys, pub: Point, id: Id)
    requires p.Responding? && p.resp in s.heap && id in Respond(s, r, p, keys, pub).heap
    ensures var text := Respond(s, r, p, keys, pub).heap[id].committed;
            text == Taken(s, id).committed || (s.heap[p.resp].buff == [] ==> text == Base64.Encode(PrintKey(pub)))
  {
    if s.heap[p.resp].buff == [] {
      assert [] + PrintKey(pub) == PrintKey(pub);
    }
  }

  lemma RelayTexts(s: Server, r: nat, p: Phase, got: Received, taken: Id, id: Id)
    requires p.Responding? && id in DoRelay(s, r, p, got, taken).heap
    ensures var text := DoRelay(s, r, p, got, taken).heap[id].committed;
            text == Taken(s, id).committed || text == Base64.Encode(got.data)
  {
    assert [] + got.data == got.data;
  }

  lemma CallbackTexts(e: Env, s: Server, step: Step, id: Id)
    requires step.Callback? && Enabled(s, step) && s.heap[s.routines[step.r].resp].buff == []
    requires id in DoCallback(e, s, step.r, s.routines[step.r], step.id).heap
    ensures TextFrom(e, s, step, id, DoCallback(e, s, step.r, s.routines[step.r], step.id).heap[id].committed)
  {
    var r, p := step.r, s.routines[step.r];
    var got := Received(s.heap[p.pkt].meta, s.heap[p.pkt].buff);
    var target := Get(got.meta, KEY_TARGET);
    if target == TARGET_RELAY {
      RelayTexts(s, r, p, got, step.id, id);
    } else if target == TARGET_KEX_SERVER {
      if KeyFrom(e, got.data).Complete? {
        var keys := Install(e.group, e.scalar, s.keys, p.v.from, KeyFrom(e, got.data).pub, false);
        RespondTexts(s, r, p, keys, PublicOf(e.group, e.scalar), id);
      }
    } else if target == TARGET_KEX_CLIENT {
      var addr := AddrFrom(e, got.data);
      if addr.Some? && addr.value in s.keys {
        RespondTexts(s, r, p, s.keys, s.keys[addr.value].public, id);
      }
    }
  }

  lemma OtherTexts(e: Env, s: Server, step: Step, id: Id)
    requires !step.Decode? && !step.Callback? && id in Do(e, s, step).heap
    ensures Do(e, s, step).heap[id].committed == Taken(s, id).committed
  {
  }

  lemma StepTexts(e: Env, past: seq<Keys>, s: Server, step: Step, id: Id)
    requires JobsOk(e, past, s) && id in Do(e, s, step).heap
    ensures TextFrom(e, s, step, id, Do(e, s, step).heap[id].committed)
  {
    if !Enabled(s, step) {
    } else if step.Decode? {
      DecodeTexts(e, s, step, id);
    } else if step.Callback? {
      assert JobOk(e, past, s, step.r);
      CallbackTexts(e, s, step, id);
    } else {
      OtherTexts(e, s, step, id);
    }
  }

  lemma HandOverEnqueues(s: Server, r: nat, r': nat, p: Phase, x: nat, k: nat)
    requires p.Offering? && p.out in s.heap && r in s.jobs && r' !in s.jobs
    requires var jobs := DoHandOver(s, r, r', p).jobs; x in jobs && k < |jobs[x].done|
    ensures var done := DoHandOver(s, r, r', p).jobs[x].done[k];
            || (x in s.jobs && k < |s.jobs[x].done| && s.jobs[x].done[k] == done)
            || (done.Enqueued? && done.o.text == s.heap[p.out].committed)
  {
  }

  lemma CallbackJobs(e: Env, s: Server, r: nat, p: Phase, id: Id)
    requires p.Responding? && p.pkt in s.heap && p.resp in s.heap
    ensures DoCallback(e, s, r, p, id).jobs == s.jobs
  {
  }

  /** Most steps leave the records of the routines alone. */
  lemma QuietJobs(e: Env, s: Server, step: Step)
    requires !step.Arrive? && !step.HandOver? && !step.Seal? && !step.Write?
    ensures Do(e, s, step).jobs == s.jobs
  {
    if step.Callback? && Enabled(s, step) {
      CallbackJobs(e, s, step.r, s.routines[step.r], step.id);
    }
  }

  /** The others record no enqueued packet. */
  lemma OtherJobs(e: Env, s: Server, step: Step, x: nat)
    requires (step.Arrive? || step.Seal? || step.Write?) && x in Do(e, s, step).jobs
    ensures var done := Do(e, s, step).jobs[x].done;
            || done == []
            || (x in s.jobs && done == s.jobs[x].done)
            || (&& x in s.jobs && |done| == |s.jobs[x].done| + 1 && done[..|done| - 1] == s.jobs[x].done
                && !done[|done| - 1].Enqueued?)
  {
    match step
    case Arrive(_, _, _) =>
    case Seal(r, resolves, nonce) =>
      if Enabled(s, step) && x == r && !resolves {
        var o := Unresolved(ToSend(s.heap[s.routines[r].id]));
        assert Do(e, s, step).jobs[x].done == s.jobs[x].done + [o];
      }
    case Write(r) =>
      if Enabled(s, step) && x == r {
        var p := s.routines[r];
        assert Do(e, s, step).jobs[x].done == s.jobs[x].done + [Wrote(p.o, p.at, p.nonce, p.wire)];
      }
  }

  lemma OthersEnqueueNothing(e: Env, s: Server, step: Step, x: nat, k: nat)
    requires !step.HandOver? && x in Do(e, s, step).jobs && k < |Do(e, s, step).jobs[x].done|
    requires Do(e, s, step).jobs[x].done[k].Enqueued?
    ensures x in s.jobs && k < |s.jobs[x].done| && s.jobs[x].done[k] == Do(e, s, step).jobs[x].done[k]
  {
    if step.Arrive? || step.Seal? || step.Write? {
      OtherJobs(e, s, step, x);
    } else {
      QuietJobs(e, s, step);
    }
  }

  /** The only packets a step enqueues are handed over, with the text they have. */
  lemma StepEnqueues(e: Env, s: Server, step: Step, x: nat, k: nat)
    requires x in Do(e, s, step).jobs && k < |Do(e, s, step).jobs[x].done|
    requires Do(e, s, step).jobs[x].done[k].Enqueued?
    ensures || (x in s.jobs && k < |s.jobs[x].done| && s.jobs[x].done[k] == Do(e, s, step).jobs[x].done[k])
            || (exists id :: id in s.heap && s.heap[id].committed == Do(e, s, step).jobs[x].done[k].o.text)
  {
    if step.HandOver? {
      if Enabled(s, step) {
        HandOverEnqueues(s, step.r, step.r', s.routines[step.r], x, k);
      }
    } else {
      OthersEnqueueNothing(e, s, step, x, k);
    }
  }

  /** All texts of the run so far have an origin: those in packets and those that were enqueued. */
  ghost predicate AllFrom(e: Env, s: Server, steps: seq<Step>, s': Server) {
    && (forall id :: id in s'.heap ==> Origin(e, s, steps, s'.heap[id].committed))
    && (forall r, k :: r in s'.jobs && 0 <= k < |s'.jobs[r].done| && s'.jobs[r].done[k].Enqueued? ==>
          Origin(e, s, steps, s'.jobs[r].done[k].o.text))
  }

  lemma NowFrom(e: Env, s: Server, steps: seq<Step>, id: Id, text: string)
    requires steps != []
    requires var t := Exec(e, s, steps[..|steps| - 1]);
             && AllFrom(e, s, steps[..|steps| - 1], t) && TextFrom(e, t, steps[|steps| - 1], id, text)
    ensures Origin(e, s, steps, text)
  {
    var t := Exec(e, s, steps[..|steps| - 1]);
    if Taken(t, id).committed == text {
      if id in t.heap {
        OriginStays(e, s, steps, text);
      }
    } else {
      assert Puts(e, Exec(e, s, steps[..|steps| - 1]), steps[|steps| - 1], text);
    }
  }

  lemma {:induction false} RunFrom(e: Env, s: Server, steps: seq<Step>)
    requires Idle(s)
    ensures AllFrom(e, s, steps, Exec(e, s, steps))
  {
    if steps != [] {
      var before, last := steps[..|steps| - 1], steps[|steps| - 1];
      var t, s' := Exec(e, s, before), Exec(e, s, steps);
      RunFrom(e, s, before);
      RunOk(e, s, before);
      forall id | id in s'.heap
        ensures Origin(e, s, steps, s'.heap[id].committed)
      {
        StepTexts(e, Past(e, s, before), t, last, id);
        NowFrom(e, s, steps, id, s'.heap[id].committed);
      }
      forall r, k | r in s'.jobs && 0 <= k < |s'.jobs[r].done| && s'.jobs[r].done[k].Enqueued?
        ensures Origin(e, s, steps, s'.jobs[r].done[k].o.text)
      {
        StepEnqueues(e, t, last, r, k);
        OriginStays(e, s, steps, s'.jobs[r].done[k].o.text);
      }
    }
  }

  /** In every interleaving, the data text of every packet that was enqueued is empty, was in a packet of the pool at
    the start, or is that of a frame that was decoded, or of a packet that was closed, in a step of the run. For an
    error packet, which is never closed, this is what its receiver finds in it. */
  lemma EnqueuedText(e: Env, s: Server, steps: seq<Step>, r: nat, k: nat)
    requires Idle(s)
    requires var s' := Exec(e, s, steps); r in s'.jobs && k < |s'.jobs[r].done| && s'.jobs[r].done[k].Enqueued?
    ensures var text := Exec(e, s, steps).jobs[r].done[k].o.text;
            || text == ""
            || (exists id :: id in s.pool && s.heap[id].committed == text)
            || (exists i :: 0 <= i < |steps| && Puts(e, Exec(e, s, steps[..i]), steps[i], text))
  {
    RunFrom(e, s, steps);
    var text := Exec(e, s, steps).jobs[r].done[k].o.text;
    if id :| id in s.heap && s.heap[id].committed == text {
      assert id in s.pool;
    }
  }
}
