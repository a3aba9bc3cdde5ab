/** The client's table of outstanding requests: sends and receipts, interleaved at their locks and channels. */
module Dispatch {
  import opened Bytes

  /** A response channel; a request may be sent without one. */
  datatype Channel = Nil | Channel(id: nat)

  datatype Dest = Misc | Response(id: nat)

  type Table = map<string, Channel>

  function Find(t: Table, ref: string): Option<Channel> {
    if ref in t then Some(t[ref]) else None
  }

  /** Where a packet goes, by what the lookup of its reference found. */
  function DestOf(found: Option<Channel>): Dest {
    if found.Some? && found.value.Channel? then Response(found.value.id) else Misc
  }

  // ---------- history ----------

  /** What has happened, in order, and in which routine: requests written and registered, packets looked up, delivered
    and forgotten. */
  datatype Event =
    | Wrote(n: nat, ref: string, ch: Channel)
    | Registered(n: nat, ref: string, ch: Channel)
    | LookedUp(n: nat, ref: string, found: Option<Channel>)
    | Delivered(n: nat, ref: string, dest: Dest)
    | Forgot(n: nat, ref: string)

  function AfterEvent(t: Table, e: Event): Table {
    match e
    case Registered(_, ref, ch) => t[ref := ch]
    case Forgot(_, ref) => t - {ref}
    case _ => t
  }

  function TableOf(h: seq<Event>): Table {
    if h == [] then map[] else AfterEvent(TableOf(h[..|h| - 1]), h[|h| - 1])
  }

  predicate Changes(e: Event, ref: string) {
    (e.Registered? || e.Forgot?) && e.ref == ref
  }

  /** The registration at `i` is the last thing that happened to its reference. */
  predicate Stands(h: seq<Event>, i: int, ref: string, ch: Channel) {
    && 0 <= i < |h| && h[i].Registered? && h[i].ref == ref && h[i].ch == ch
    && forall k :: i < k < |h| ==> !Changes(h[k], ref)
  }

  /** No registration of the reference stands. */
  ghost predicate Gone(h: seq<Event>, ref: string) {
    forall i, ch :: !Stands(h, i, ref, ch)
  }

  /** The table refines the history: a reference leads to a channel if and only if it was registered with that channel
    and neither registered again nor forgotten since. */
  lemma {:induction false} TableIsHistory(h: seq<Event>, ref: string, ch: Channel)
    ensures Find(TableOf(h), ref) == Some(ch) <==> exists i :: Stands(h, i, ref, ch)
  {
    if h != [] {
      var before, last := h[..|h| - 1], h[|h| - 1];
      TableIsHistory(before, ref, ch);
      if Find(TableOf(h), ref) == Some(ch) {
        if Changes(last, ref) {
          assert Stands(h, |h| - 1, ref, ch);
        } else {
          var i :| Stands(before, i, ref, ch);
          assert Stands(h, i, ref, ch);
        }
      }
      if i :| Stands(h, i, ref, ch) {
        if i < |h| - 1 {
          assert !Changes(last, ref);
          assert Stands(before, i, ref, ch) by {
            assert forall k :: i < k < |before| ==> before[k] == h[k];
          }
        }
      }
    }
  }

  // ---------- interleaved routines ----------

  datatype Phase =
    | ToWrite(ref: string, ch: Channel)
    | ToRegister(ref: string, ch: Channel)
    | ToLookup(ref: string)
    | ToDeliver(ref: string, found: Option<Channel>)
    | ToForget(ref: string)
    | Sent(ref: string, ch: Channel)
    | Received(ref: string)

  datatype State = State(table: Table, routines: map<nat, Phase>, history: seq<Event>)

  function Init(): State {
    State(map[], map[], [])
  }

  /** A send is started with its reference, a receipt with the reference of the packet it decoded. */
  datatype Step = Send(n: nat, ref: string, ch: Channel) | Receive(n: nat, ref: string) | Move(n: nat)

  function Log(s: State, n: nat, p: Phase, e: Event): State {
    s.(routines := s.routines[n := p], history := s.history + [e], table := AfterEvent(s.table, e))
  }

  function Do(s: State, step: Step): State {
    match step
    case Send(n, ref, ch) => if n in s.routines then s else s.(routines := s.routines[n := ToWrite(ref, ch)])
    case Receive(n, ref) => if n in s.routines then s else s.(routines := s.routines[n := ToLookup(ref)])
    case Move(n) =>
      if n !in s.routines then s
      else match s.routines[n]
        case ToWrite(ref, ch) => Log(s, n, ToRegister(ref, ch), Wrote(n, ref, ch))
        case ToRegister(ref, ch) => Log(s, n, Sent(ref, ch), Registered(n, ref, ch))
        case ToLookup(ref) => Log(s, n, ToDeliver(ref, Find(s.table, ref)), LookedUp(n, ref, Find(s.table, ref)))
        case ToDeliver(ref, found) => Log(s, n, ToForget(ref), Delivered(n, ref, DestOf(found)))
        case ToForget(ref) => Log(s, n, Received(ref), Forgot(n, ref))
        case _ => s
  }

  function Exec(steps: seq<Step>): State {
    if steps == [] then Init() else Do(Exec(steps[..|steps| - 1]), steps[|steps| - 1])
  }

  // ---------- what every interleaving satisfies ----------

  /** What one routine has done, in order. */
  function Trace(h: seq<Event>, n: nat): seq<Event> {
    if h == [] then [] else Trace(h[..|h| - 1], n) + if h[|h| - 1].n == n then [h[|h| - 1]] else []
  }

  /** All that a send does, and all that a receipt does whose lookup found this. */
  function SendTrace(n: nat, ref: string, ch: Channel): seq<Event> {
    [Wrote(n, ref, ch), Registered(n, ref, ch)]
  }

  function ReceiptTrace(n: nat, ref: string, found: Option<Channel>): seq<Event> {
    [LookedUp(n, ref, found), Delivered(n, ref, DestOf(found)), Forgot(n, ref)]
  }

  /** The lookup at `i` by the routine found what the table held then. */
  predicate LooksUpAt(h: seq<Event>, i: int, n: nat, ref: string, found: Option<Channel>) {
    0 <= i < |h| && h[i] == LookedUp(n, ref, found) && found == Find(TableOf(h[..i]), ref)
  }

  /** The routine has looked up its reference and done the first `k` things of a receipt. */
  ghost predicate Receiving(h: seq<Event>, n: nat, ref: string, found: Option<Channel>, k: nat) {
    && 0 < k <= 3 && Trace(h, n) == ReceiptTrace(n, ref, found)[..k]
    && exists i :: LooksUpAt(h, i, n, ref, found)
  }

  ghost predicate RoutineOk(s: State, n: nat) {
    if n !in s.routines then Trace(s.history, n) == []
    else match s.routines[n]
      case ToWrite(_, _) => Trace(s.history, n) == []
      case ToRegister(ref, ch) => Trace(s.history, n) == SendTrace(n, ref, ch)[..1]
      case Sent(ref, ch) => Trace(s.history, n) == SendTrace(n, ref, ch)
      case ToLookup(_) => Trace(s.history, n) == []
      case ToDeliver(ref, found) => Receiving(s.history, n, ref, found, 1)
      case ToForget(ref) => exists found :: Receiving(s.history, n, ref, found, 2)
      case Received(ref) => exists found :: Receiving(s.history, n, ref, found, 3)
  }

  ghost predicate Inv(s: State) {
    s.table == TableOf(s.history) && forall n :: RoutineOk(s, n)
  }

  lemma HistoryGrows(h: seq<Event>, e: Event, n: nat)
    ensures TableOf(h + [e]) == AfterEvent(TableOf(h), e)
    ensures Trace(h + [e], n) == Trace(h, n) + if e.n == n then [e] else []
  {
    assert (h + [e])[..|h|] == h;
  }

  lemma ReceivingStays(h: seq<Event>, e: Event, n: nat, ref: string, found: Option<Channel>, k: nat)
    requires Receiving(h, n, ref, found, k) && e.n != n
    ensures Receiving(h + [e], n, ref, found, k)
  {
    LookedStays(h, e, n, ref, found);
    HistoryGrows(h, e, n);
  }

  lemma LookedStays(h: seq<Event>, e: Event, n: nat, ref: string, found: Option<Channel>)
    requires exists i :: LooksUpAt(h, i, n, ref, found)
    ensures exists i :: LooksUpAt(h + [e], i, n, ref, found)
  {
    var i :| LooksUpAt(h, i, n, ref, found);
    assert (h + [e])[..i] == h[..i];
    assert LooksUpAt(h + [e], i, n, ref, found);
  }

  /** The next thing of a receipt. */
  lemma ReceivingNext(h: seq<Event>, n: nat, ref: string, found: Option<Channel>, k: nat)
    requires Receiving(h, n, ref, found, k) && k < 3
    ensures Receiving(h + [ReceiptTrace(n, ref, found)[k]], n, ref, found, k + 1)
  {
    var all := ReceiptTrace(n, ref, found);
    LookedStays(h, all[k], n, ref, found);
    HistoryGrows(h, all[k], n);
    assert all[..k] + [all[k]] == all[..k + 1];
  }

  lemma OthersStay(s: State, n: nat, p: Phase, e: Event, x: nat)
    requires RoutineOk(s, x) && x != n && e.n == n
    ensures RoutineOk(Log(s, n, p, e), x)
  {
    HistoryGrows(s.history, e, x);
    if x in s.routines {
      match s.routines[x]
      case ToDeliver(ref, found) => ReceivingStays(s.history, e, x, ref, found, 1);
      case ToForget(ref) =>
        var found :| Receiving(s.history, x, ref, found, 2);
        ReceivingStays(s.history, e, x, ref, found, 2);
      case Received(ref) =>
        var found :| Receiving(s.history, x, ref, found, 3);
        ReceivingStays(s.history, e, x, ref, found, 3);
      case _ =>
    }
  }

  lemma LogKeeps(s: State, n: nat, p: Phase, e: Event)
    requires Inv(s) && e.n == n && RoutineOk(Log(s, n, p, e), n)
    ensures Inv(Log(s, n, p, e))
  {
    HistoryGrows(s.history, e, n);
    forall x
      ensures RoutineOk(Log(s, n, p, e), x)
    {
      if x != n {
        OthersStay(s, n, p, e, x);
      }
    }
  }

  lemma SendKeeps(s: State, n: nat)
    requires Inv(s) && n in s.routines && (s.routines[n].ToWrite? || s.routines[n].ToRegister?)
    ensures Inv(Do(s, Move(n)))
  {
    assert RoutineOk(s, n);
    var ref, ch := s.routines[n].ref, s.routines[n].ch;
    if s.routines[n].ToWrite? {
      HistoryGrows(s.history, Wrote(n, ref, ch), n);
      LogKeeps(s, n, ToRegister(ref, ch), Wrote(n, ref, ch));
    } else {
      HistoryGrows(s.history, Registered(n, ref, ch), n);
      assert SendTrace(n, ref, ch)[..1] + [Registered(n, ref, ch)] == SendTrace(n, ref, ch);
      LogKeeps(s, n, Sent(ref, ch), Registered(n, ref, ch));
    }
  }

  lemma LookupKeeps(s: State, n: nat, ref: string)
    requires Inv(s) && n in s.routines && s.routines[n] == ToLookup(ref)
    ensures Inv(Do(s, Move(n)))
  {
    var found := Find(s.table, ref);
    var e := LookedUp(n, ref, found);
    assert RoutineOk(s, n);
    HistoryGrows(s.history, e, n);
    assert (s.history + [e])[..|s.history|] == s.history;
    assert LooksUpAt(s.history + [e], |s.history|, n, ref, found);
    assert [] + [e] == ReceiptTrace(n, ref, found)[..1];
    LogKeeps(s, n, ToDeliver(ref, found), e);
  }

  lemma DeliverKeeps(s: State, n: nat, ref: string, found: Option<Channel>)
    requires Inv(s) && n in s.routines && s.routines[n] == ToDeliver(ref, found)
    ensures Inv(Do(s, Move(n)))
  {
    assert RoutineOk(s, n);
    ReceivingNext(s.history, n, ref, found, 1);
    LogKeeps(s, n, ToForget(ref), Delivered(n, ref, DestOf(found)));
  }

  lemma ForgetKeeps(s: State, n: nat, ref: string)
    requires Inv(s) && n in s.routines && s.routines[n] == ToForget(ref)
    ensures Inv(Do(s, Move(n)))
  {
    assert RoutineOk(s, n);
    var found :| Receiving(s.history, n, ref, found, 2);
    ReceivingNext(s.history, n, ref, found, 2);
    LogKeeps(s, n, Received(ref), Forgot(n, ref));
  }

  lemma MoveKeeps(s: State, n: nat)
    requires Inv(s) && n in s.routines
    ensures Inv(Do(s, Move(n)))
  {
    match s.routines[n]
    case ToWrite(_, _) => SendKeeps(s, n);
    case ToRegister(_, _) => SendKeeps(s, n);
    case ToLookup(ref) => LookupKeeps(s, n, ref);
    case ToDeliver(ref, found) => DeliverKeeps(s, n, ref, found);
    case ToForget(ref) => ForgetKeeps(s, n, ref);
    case _ =>
  }

  lemma {:induction false} RunKeeps(steps: seq<Step>)
    ensures Inv(Exec(steps))
  {
    if steps != [] {
      RunKeeps(steps[..|steps| - 1]);
      var s, step := Exec(steps[..|steps| - 1]), steps[|steps| - 1];
      if step.Move? {
        if step.n in s.routines {
          MoveKeeps(s, step.n);
        }
      } else {
        assert RoutineOk(s, step.n);
        assert forall x :: RoutineOk(s, x) ==> RoutineOk(Do(s, step), x);
      }
    }
  }

  /** What a routine has done, whatever the others did in between: a send has written and then registered, in this
    order; a receipt has looked its reference up, delivered where that lookup said, and then forgotten the reference,
    in this order and each at most once; and when it has ended it has done all of it. */
  lemma InOrder(steps: seq<Step>, n: nat)
    requires n in Exec(steps).routines
    ensures var h, p := Exec(steps).history, Exec(steps).routines[n];
            if p.ToWrite? || p.ToRegister? || p.Sent? then
              Trace(h, n) <= [Wrote(n, p.ref, p.ch), Registered(n, p.ref, p.ch)] && (p.Sent? ==> |Trace(h, n)| == 2)
            else exists found ::
              && Trace(h, n) <= [LookedUp(n, p.ref, found), Delivered(n, p.ref, DestOf(found)), Forgot(n, p.ref)]
              && (p.Received? ==> |Trace(h, n)| == 3)
  {
    RunKeeps(steps);
    var s := Exec(steps);
    assert RoutineOk(s, n);
    match s.routines[n]
    case ToLookup(ref) => assert Trace(s.history, n) <= ReceiptTrace(n, ref, None);
    case ToDeliver(ref, found) => assert Trace(s.history, n) <= ReceiptTrace(n, ref, found);
    case ToForget(ref) =>
      var found :| Receiving(s.history, n, ref, found, 2);
      assert Trace(s.history, n) <= ReceiptTrace(n, ref, found);
    case Received(ref) =>
      var found :| Receiving(s.history, n, ref, found, 3);
      assert Trace(s.history, n) <= ReceiptTrace(n, ref, found);
    case _ =>
  }

  /** The lookup of routine `n` that found the channel, and the registration that stood then. */
  predicate Earlier(h: seq<Event>, k: int, j: int, n: nat, ref: string, id: nat) {
    && 0 <= j < k < |h| && h[k] == LookedUp(n, ref, Some(Channel(id)))
    && Stands(h[..k], j, ref, Channel(id))
  }

  /** Client dispatch, in every interleaving of sends and receipts: a receipt that has ended has looked up, delivered
    and forgotten, each once and in this order; and if it delivered on a response channel, an earlier send had
    registered that very channel under the reference of the packet, which was neither registered again nor forgotten
    before the lookup. */
  lemma DispatchSafety(steps: seq<Step>, n: nat, ref: string) returns (found: Option<Channel>)
    requires n in Exec(steps).routines && Exec(steps).routines[n] == Received(ref)
    ensures var h := Exec(steps).history;
            && Trace(h, n) == [LookedUp(n, ref, found), Delivered(n, ref, DestOf(found)), Forgot(n, ref)]
            && forall id :: DestOf(found) == Response(id) ==> exists k, j :: Earlier(h, k, j, n, ref, id)
  {
    RunKeeps(steps);
    var h := Exec(steps).history;
    assert RoutineOk(Exec(steps), n);
    found :| Receiving(h, n, ref, found, 3);
    if DestOf(found).Response? {
      var k :| LooksUpAt(h, k, n, ref, found);
      TableIsHistory(h[..k], ref, found.value);
      var j :| Stands(h[..k], j, ref, found.value);
      assert Earlier(h, k, j, n, ref, DestOf(found).id);
    }
  }

  // ---------- a response channel is used up ----------

  lemma {:induction false} TraceIn(h: seq<Event>, n: nat, e: Event)
    ensures e in Trace(h, n) <==> e.n == n && e in h
  {
    if h != [] {
      TraceIn(h[..|h| - 1], n, e);
      assert h == h[..|h| - 1] + [h[|h| - 1]];
    }
  }

  /** The routine forgot the reference at `f`, after it had delivered. */
  predicate ForgotAt(h: seq<Event>, d: int, f: int, n: nat, ref: string) {
    0 <= d < f < |h| && h[d].Delivered? && h[d].n == n && h[d].ref == ref && h[f] == Forgot(n, ref)
  }

  lemma {:induction false} TraceOrder(h: seq<Event>, n: nat, a: Event, b: Event, c: Event)
    requires Trace(h, n) == [a, b, c]
    ensures exists d, f :: 0 <= d < f < |h| && h[d] == b && h[f] == c
  {
    var before, last := h[..|h| - 1], h[|h| - 1];
    if last.n == n {
      assert Trace(before, n) == [a, b, c][..2] && [a, b, c][..2][1] == b;
      assert b in Trace(before, n);
      TraceIn(before, n, b);
      var d :| 0 <= d < |before| && before[d] == b;
      assert h[d] == b && h[|h| - 1] == c;
    } else {
      TraceOrder(before, n, a, b, c);
      var d, f :| 0 <= d < f < |before| && before[d] == b && before[f] == c;
      assert h[d] == b && h[f] == c;
    }
  }

  /** A response channel is used up, in every interleaving: a receipt that has ended forgot its reference at some `f`,
    after it had delivered, so no registration made before that stands any more. And any other receipt of the
    reference that found a channel, at its lookup `k`, found one that was registered after `f`, or looked it up
    before. */
  lemma UsedUp(steps: seq<Step>, n: nat, ref: string) returns (d: nat, f: nat)
    requires n in Exec(steps).routines && Exec(steps).routines[n] == Received(ref)
    ensures var h := Exec(steps).history;
            && ForgotAt(h, d, f, n, ref)
            && (forall j, ch :: Stands(h, j, ref, ch) ==> f < j)
            && forall n', k, j, id :: Earlier(h, k, j, n', ref, id) ==> k < f || f < j
  {
    var h := Exec(steps).history;
    var found := DispatchSafety(steps, n, ref);
    TraceOrder(h, n, LookedUp(n, ref, found), Delivered(n, ref, DestOf(found)), Forgot(n, ref));
    d, f :| 0 <= d < f < |h| && h[d] == Delivered(n, ref, DestOf(found)) && h[f] == Forgot(n, ref);
    assert Changes(h[f], ref);
    forall n', k, j, id | Earlier(h, k, j, n', ref, id)
      ensures k < f || f < j
    {
      assert f < k ==> h[..k][f] == h[f];
    }
  }

  /** A send registers its channel only after the request is on its way, so the response can overtake it: then the
    response goes to the channel for miscellaneous packets, and the registration that follows stays behind. */
  lemma ResponseOvertakes(ref: string, id: nat)
    ensures var s := Exec([Send(0, ref, Channel(id)), Move(0), Receive(1, ref), Move(1), Move(1), Move(1), Move(0)]);
            && s.history == [Wrote(0, ref, Channel(id)), LookedUp(1, ref, None), Delivered(1, ref, Misc),
                             Forgot(1, ref), Registered(0, ref, Channel(id))]
            && s.table == map[ref := Channel(id)]
  {
    var a, b, c, m0, m1 := Send(0, ref, Channel(id)), Move(0), Receive(1, ref), Move(0), Move(1);
    assert Exec([a]) == Do(Init(), a) by { assert [a][..0] == []; }
    assert Exec([a, b]) == Do(Exec([a]), b) by { assert [a, b][..1] == [a]; }
    assert Exec([a, b, c]) == Do(Exec([a, b]), c) by { assert [a, b, c][..2] == [a, b]; }
    assert Exec([a, b, c, m1]) == Do(Exec([a, b, c]), m1) by { assert [a, b, c, m1][..3] == [a, b, c]; }
    assert Exec([a, b, c, m1, m1]) == Do(Exec([a, b, c, m1]), m1) by { assert [a, b, c, m1, m1][..4] == [a, b, c, m1]; }
    assert Exec([a, b, c, m1, m1, m1]) == Do(Exec([a, b, c, m1, m1]), m1) by {
      assert [a, b, c, m1, m1, m1][..5] == [a, b, c, m1, m1];
    }
    assert Exec([a, b, c, m1, m1, m1, m0]) == Do(Exec([a, b, c, m1, m1, m1]), m0) by {
      assert [a, b, c, m1, m1, m1, m0][..6] == [a, b, c, m1, m1, m1];
    }
  }

  /** When a response does reach its channel: exactly when, at its lookup, the registration of its request stands. */
  lemma ReachesChannel(steps: seq<Step>, n: nat, ref: string, id: nat)
    requires n in Exec(steps).routines && Exec(steps).routines[n] == ToLookup(ref)
    ensures var s := Exec(steps); var s' := Do(Do(s, Move(n)), Move(n));
            && s'.history[|s.history|..] == [s'.history[|s.history|], Delivered(n, ref, DestOf(Find(s.table, ref)))]
            && (DestOf(Find(s.table, ref)) == Response(id) <==> exists i :: Stands(s.history, i, ref, Channel(id)))
  {
    RunKeeps(steps);
    TableIsHistory(Exec(steps).history, ref, Channel(id));
  }

  // ---------- the client object ----------

  lemma FoundIs(h: seq<Event>, ref: string, found: Option<Channel>)
    requires forall ch :: found == Some(ch) <==> exists i :: Stands(h, i, ref, ch)
    ensures found == Find(TableOf(h), ref)
  {
    var held := Find(TableOf(h), ref);
    if held.Some? {
      TableIsHistory(h, ref, held.value);
    }
    if found.Some? {
      TableIsHistory(h, ref, found.value);
    }
  }

  /** The client as an object: its table of requests, its routines, and what has happened so far. Each of the first four
    methods is a locked region or channel operation of a routine. */
  class UDPClient {
    var requests: Table
    var routines: map<nat, Phase>
    ghost var log: seq<Event>

    ghost predicate Valid()
      reads this
    {
      requests == TableOf(log)
    }

    ghost function View(): State
      reads this
    {
      State(requests, routines, log)
    }

    constructor ()
      ensures Valid() && View() == Init()
    {
      requests, routines, log := map[], map[], [];
    }

    /** From now on the reference leads to the channel. */
    method Register(n: nat, ref: string, ch: Channel)
      requires Valid()
      modifies `requests, `log
      ensures Valid() && log == old(log) + [Registered(n, ref, ch)] && requests == old(requests)[ref := ch]
      ensures Stands(log, |log| - 1, ref, ch)
    {
      HistoryGrows(log, Registered(n, ref, ch), n);
      requests := requests[ref := ch];
      log := log + [Registered(n, ref, ch)];
    }

    /** Finds a channel exactly if it was registered under the reference, and nothing happened to the reference since.
      */
    method Lookup(n: nat, ref: string) returns (found: Option<Channel>)
      requires Valid()
      modifies `log
      ensures Valid() && log == old(log) + [LookedUp(n, ref, found)]
      ensures forall ch :: found == Some(ch) <==> exists i :: Stands(old(log), i, ref, ch)
    {
      found := if ref in requests then Some(requests[ref]) else None;
      forall ch
        ensures found == Some(ch) <==> exists i :: Stands(log, i, ref, ch)
      {
        TableIsHistory(log, ref, ch);
      }
      HistoryGrows(log, LookedUp(n, ref, found), n);
      log := log + [LookedUp(n, ref, found)];
    }

    /** No registration of the reference stands any more. */
    method Forget(n: nat, ref: string)
      requires Valid()
      modifies `requests, `log
      ensures Valid() && log == old(log) + [Forgot(n, ref)] && requests == old(requests) - {ref}
      ensures Gone(log, ref)
    {
      HistoryGrows(log, Forgot(n, ref), n);
      requests := requests - {ref};
      log := log + [Forgot(n, ref)];
      assert Changes(log[|log| - 1], ref);
    }

    /** Something happens that does not touch the table. */
    method Note(e: Event)
      requires Valid() && !e.Registered? && !e.Forgot?
      modifies `log
      ensures Valid() && log == old(log) + [e]
    {
      HistoryGrows(log, e, 0);
      log := log + [e];
    }

    /** The next operation of a routine that sends: writing, registering. */
    method AdvanceWrite(n: nat)
      requires Valid() && n in routines && routines[n].ToWrite?
      modifies this
      ensures Valid() && View() == Do(old(View()), Move(n))
    {
      var p := routines[n];
      Note(Wrote(n, p.ref, p.ch));
      routines := routines[n := ToRegister(p.ref, p.ch)];
    }

    method AdvanceRegister(n: nat)
      requires Valid() && n in routines && routines[n].ToRegister?
      modifies this
      ensures Valid() && View() == Do(old(View()), Move(n))
    {
      var ref, ch := routines[n].ref, routines[n].ch;
      ghost var before := View();
      assert Do(before, Move(n)) == Log(before, n, Sent(ref, ch), Registered(n, ref, ch));
      Register(n, ref, ch);
      routines := routines[n := Sent(ref, ch)];
    }

    /** The next operation of a routine that receives: looking up, delivering, forgetting. */
    method AdvanceLookup(n: nat)
      requires Valid() && n in routines && routines[n].ToLookup?
      modifies this
      ensures Valid() && View() == Do(old(View()), Move(n))
    {
      var ref := routines[n].ref;
      ghost var before := log;
      var found := Lookup(n, ref);
      FoundIs(before, ref, found);
      routines := routines[n := ToDeliver(ref, found)];
      HistoryGrows(before, LookedUp(n, ref, found), n);
    }

    method AdvanceDelivery(n: nat)
      requires Valid() && n in routines && routines[n].ToDeliver?
      modifies this
      ensures Valid() && View() == Do(old(View()), Move(n))
    {
      var p := routines[n];
      Note(Delivered(n, p.ref, DestOf(p.found)));
      routines := routines[n := ToForget(p.ref)];
    }

    method AdvanceForget(n: nat)
      requires Valid() && n in routines && routines[n].ToForget?
      modifies this
      ensures Valid() && View() == Do(old(View()), Move(n))
    {
      var ref := routines[n].ref;
      Forget(n, ref);
      routines := routines[n := Received(ref)];
    }

    /** Sends and receipts, started and moved on in the order given: the object goes through the states of the
      interleaving, so what is proved of all interleavings holds of it. */
    method Play(steps: seq<Step>)
      requires Valid() && View() == Init()
      modifies this
      ensures Valid() && View() == Exec(steps)
    {
      for k := 0 to |steps|
        invariant Valid() && View() == Exec(steps[..k])
      {
        assert steps[..k + 1][..k] == steps[..k];
        match steps[k]
        case Send(n, ref, ch) =>
          if n !in routines {
            routines := routines[n := ToWrite(ref, ch)];
          }
        case Receive(n, ref) =>
          if n !in routines {
            routines := routines[n := ToLookup(ref)];
          }
        case Move(n) =>
          if n in routines {
            var p := routines[n];
            if p.ToWrite? {
              AdvanceWrite(n);
            } else if p.ToRegister? {
              AdvanceRegister(n);
            } else if p.ToLookup? {
              AdvanceLookup(n);
            } else if p.ToDeliver? {
              AdvanceDelivery(n);
            } else if p.ToForget? {
              AdvanceForget(n);
            }
          }
      }
      assert steps[..|steps|] == steps;
    }
  }
}
