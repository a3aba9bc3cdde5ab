/** Data and packet pipelines: queues of stages run one after the other until one leaves a stop code. */
module Pipeline {
  import opened Bytes

  const CONTINUE := 0
  const STOP_ERROR := -1
  const STOP_CLOSE_SEND := 1
  const STOP_NOOP := 2
  const RELAY := 3

  /** The shared context of a run, with whatever else the stages work on in `state`. */
  datatype Flow<S> = Flow(stat: int, msg: string, state: S)

  type Stage<!S> = Flow<S> -> Flow<S>

  /** The relay code is not among them, whatever its description says. */
  predicate Stops(stat: int) {
    stat == STOP_ERROR || stat == STOP_NOOP || stat == STOP_CLOSE_SEND
  }

  /** Running a queue: the code is looked at after each stage, never before the first. */
  function Run<S>(q: seq<Stage<S>>, f: Flow<S>): Flow<S>
    decreases |q|
  {
    if q == [] then f
    else
      var f' := q[0](f);
      if Stops(f'.stat) then f' else Run(q[1..], f')
  }

  /** Every stage in turn, whatever codes they leave. */
  function RunAll<S>(q: seq<Stage<S>>, f: Flow<S>): Flow<S>
    decreases |q|
  {
    if q == [] then f else RunAll(q[1..], q[0](f))
  }

  /** The first `n` stages leave a stop code. */
  predicate StopsAfter<S>(q: seq<Stage<S>>, f: Flow<S>, n: int) {
    0 < n <= |q| && Stops(RunAll(q[..n], f).stat)
  }

  ghost predicate Halts<S>(q: seq<Stage<S>>, f: Flow<S>) {
    exists n :: StopsAfter(q, f, n)
  }

  /** `n` is where the queue stops: the first stage to leave a stop code, or the end. */
  ghost predicate StopsFirstAt<S>(q: seq<Stage<S>>, f: Flow<S>, n: int) {
    && 0 <= n <= |q|
    && (n < |q| ==> StopsAfter(q, f, n))
    && (forall i :: i < n ==> !StopsAfter(q, f, i))
  }

  lemma RunAllCons<S>(q: seq<Stage<S>>, f: Flow<S>, n: int)
    requires 0 < n <= |q|
    ensures RunAll(q[..n], f) == RunAll(q[1..][..n - 1], q[0](f))
  {
    assert q[..n][1..] == q[1..][..n - 1];
  }

  /** The meaning of a run: exactly the stages up to the first that leaves -1, 1 or 2 are executed, and there is one
    such point. */
  lemma {:induction false} RunsToFirstStop<S>(q: seq<Stage<S>>, f: Flow<S>) returns (n: nat)
    ensures n <= |q| && (n < |q| ==> n > 0 && RunAll(q[..n], f).stat in {-1, 1, 2})
    ensures forall i :: 0 < i < n ==> RunAll(q[..i], f).stat !in {-1, 1, 2}
    ensures StopsFirstAt(q, f, n)
    ensures Run(q, f) == RunAll(q[..n], f)
    ensures forall k :: StopsFirstAt(q, f, k) ==> k == n
    decreases |q|
  {
    if q == [] {
      n := 0;
    } else {
      RunAllCons(q, f, 1);
      if Stops(q[0](f).stat) {
        n := 1;
        assert StopsAfter(q, f, 1);
      } else {
        var rest := RunsToFirstStop(q[1..], q[0](f));
        n := rest + 1;
        RunAllCons(q, f, n);
        forall i | i < n
          ensures !StopsAfter(q, f, i)
        {
          if i > 0 {
            RunAllCons(q, f, i);
            assert !StopsAfter(q[1..], q[0](f), i - 1);
          }
        }
      }
    }
    forall i | 0 < i < n
      ensures RunAll(q[..i], f).stat !in {-1, 1, 2}
    {
      assert !StopsAfter(q, f, i);
    }
    forall k | StopsFirstAt(q, f, k)
      ensures k == n
    {
      assert k < n ==> StopsAfter(q, f, k);
      assert n < k ==> !StopsAfter(q, f, n);
    }
  }

  /** Running one queue after another is running both as one, unless the first stops. */
  lemma {:induction false} RunAppend<S>(p: seq<Stage<S>>, q: seq<Stage<S>>, f: Flow<S>)
    ensures Run(p + q, f) == if Halts(p, f) then Run(p, f) else Run(q, Run(p, f))
    decreases |p|
  {
    if p == [] {
      assert p + q == q;
    } else {
      assert (p + q)[1..] == p[1..] + q;
      var f' := p[0](f);
      RunAllCons(p, f, 1);
      if Stops(f'.stat) {
        assert StopsAfter(p, f, 1);
      } else {
        RunAppend(p[1..], q, f');
        if Halts(p, f) {
          var n :| StopsAfter(p, f, n);
          RunAllCons(p, f, n);
          assert StopsAfter(p[1..], f', n - 1);
        }
        if Halts(p[1..], f') {
          var n :| StopsAfter(p[1..], f', n);
          RunAllCons(p, f, n + 1);
          assert StopsAfter(p, f, n + 1);
        }
      }
    }
  }

  /** What each status does, by its number: after -1, 1 and 2 nothing more runs, after any other the rest does. */
  lemma StatusDecides<S>(stage: Stage<S>, q: seq<Stage<S>>, f: Flow<S>)
    ensures Run([stage] + q, f) == if stage(f).stat in {-1, 1, 2} then stage(f) else Run(q, stage(f))
  {
    assert ([stage] + q)[1..] == q;
  }

  /** The relay status stops nothing: the stages after it run. */
  lemma RelayGoesOn<S>(stage: Stage<S>, q: seq<Stage<S>>, f: Flow<S>)
    requires stage(f).stat == RELAY
    ensures Run([stage] + q, f) == Run(q, stage(f))
  {
    assert ([stage] + q)[1..] == q;
  }

  // ---------- the tables of queues ----------

  type Queues<!S> = map<string, seq<Stage<S>>>

  function Queue<S>(t: Queues<S>, name: string): seq<Stage<S>> {
    if name in t then t[name] else []
  }

  function AddTo<S>(t: Queues<S>, name: string, stage: Stage<S>): Queues<S> {
    t[name := Queue(t, name) + [stage]]
  }

  function AddAll<S>(t: Queues<S>, adds: seq<(string, Stage<S>)>): Queues<S>
    decreases |adds|
  {
    if adds == [] then t else AddAll(AddTo(t, adds[0].0, adds[0].1), adds[1..])
  }

  lemma {:induction false} SnapshotIsPrefix<S>(t: Queues<S>, adds: seq<(string, Stage<S>)>, name: string)
    ensures Queue(t, name) <= Queue(AddAll(t, adds), name)
    decreases |adds|
  {
    if adds != [] {
      SnapshotIsPrefix(AddTo(t, adds[0].0, adds[0].1), adds[1..], name);
    }
  }

  /** A run works on the queue as it was when it started: stages added meanwhile, to any queue, come after all of it,
    so a run that stops gives what a run of the later queue gives. */
  lemma SnapshotRun<S>(t: Queues<S>, adds: seq<(string, Stage<S>)>, name: string, f: Flow<S>)
    ensures var now, later := Queue(t, name), Queue(AddAll(t, adds), name);
            && now <= later
            && Run(later, f) == if Halts(now, f) then Run(now, f) else Run(later[|now|..], Run(now, f))
  {
    var now, later := Queue(t, name), Queue(AddAll(t, adds), name);
    SnapshotIsPrefix(t, adds, name);
    assert later == now + later[|now|..];
    RunAppend(now, later[|now|..], f);
  }

  /** The error a data pipeline reports: some stage ran and the last one left the error code. */
  function DataError<S>(q: seq<Stage<S>>, f: Flow<S>): Option<string> {
    if q != [] && Run(q, f).stat == STOP_ERROR then Some("pipeline terminated: " + Run(q, f).msg) else None
  }

  function PacketError<S>(t: Queues<S>, target: string, f: Flow<S>): Option<string> {
    if target !in t then Some("target not found")
    else if t[target] != [] && Run(t[target], f).stat == STOP_ERROR then Some(Run(t[target], f).msg)
    else None
  }

  lemma {:induction false} RunFrom<S>(q: seq<Stage<S>>, f: Flow<S>, g: Flow<S>, i: nat)
    requires i < |q| && Run(q, f) == Run(q[i..], g)
    ensures Stops(q[i](g).stat) ==> Run(q, f) == q[i](g)
    ensures !Stops(q[i](g).stat) ==> Run(q, f) == Run(q[i + 1..], q[i](g))
  {
    assert q[i..][0] == q[i] && q[i..][1..] == q[i + 1..];
  }

  class DataPipeline<!S> {
    var locked: bool
    var pipelines: Queues<S>

    constructor ()
      ensures pipelines == map[] && !locked
    {
      pipelines, locked := map[], false;
    }

    method Lock()
      modifies `locked
      ensures locked
    {
      locked := true;
    }

    method Unlock()
      modifies `locked
      ensures !locked
    {
      locked := false;
    }

    /** The lock is not consulted. */
    method AddTransform(name: string, transform: Stage<S>)
      modifies `pipelines
      ensures pipelines == AddTo(old(pipelines), name, transform)
      ensures name in pipelines && Queue(old(pipelines), name) + [transform] == pipelines[name]
      ensures forall x :: x != name ==> Queue(pipelines, x) == Queue(old(pipelines), x)
    {
      pipelines := pipelines[name := (if name in pipelines then pipelines[name] else []) + [transform]];
    }

    method Process(name: string, ctx: Flow<S>) returns (f: Flow<S>, err: Option<string>)
      ensures f == Run(Queue(pipelines, name), ctx)
      ensures err == DataError(Queue(pipelines, name), ctx)
      ensures err == if name in pipelines && pipelines[name] != [] && f.stat == -1
                     then Some("pipeline terminated: " + f.msg) else None
    {
      var q := if name in pipelines then pipelines[name] else [];
      f, err := ctx, None;
      var i := 0;
      while i < |q|
        invariant 0 <= i <= |q|
        invariant Run(q, ctx) == Run(q[i..], f)
        invariant i > 0 ==> !Stops(f.stat)
      {
        RunFrom(q, ctx, f, i);
        f := q[i](f);
        if f.stat == STOP_ERROR {
          err := Some("pipeline terminated: " + f.msg);
          return;
        } else if f.stat == STOP_NOOP || f.stat == STOP_CLOSE_SEND {
          return;
        }
        i := i + 1;
      }
    }
  }

  class PacketPipeline<!S> {
    var callbackQueues: Queues<S>

    constructor ()
      ensures callbackQueues == map[]
    {
      callbackQueues := map[];
    }

    method AddCallback(target: string, cb: Stage<S>)
      modifies this
      ensures callbackQueues == AddTo(old(callbackQueues), target, cb)
      ensures target in callbackQueues && Queue(old(callbackQueues), target) + [cb] == callbackQueues[target]
      ensures forall x :: x != target ==> Queue(callbackQueues, x) == Queue(old(callbackQueues), x)
    {
      var queue := if target in callbackQueues then callbackQueues[target] else [];
      callbackQueues := callbackQueues[target := queue + [cb]];
    }

    method Process(target: string, ctx: Flow<S>) returns (f: Flow<S>, err: Option<string>)
      ensures f == Run(Queue(callbackQueues, target), ctx)
      ensures err == PacketError(callbackQueues, target, ctx)
      ensures err == if target !in callbackQueues then Some("target not found")
                     else if callbackQueues[target] != [] && f.stat == -1 then Some(f.msg) else None
    {
      f, err := ctx, None;
      if target !in callbackQueues {
        err := Some("target not found");
        return;
      }
      var q := callbackQueues[target];
      var i := 0;
      while i < |q|
        invariant 0 <= i <= |q|
        invariant Run(q, ctx) == Run(q[i..], f)
        invariant i > 0 ==> !Stops(f.stat)
      {
        RunFrom(q, ctx, f, i);
        f := q[i](f);
        if f.stat == STOP_ERROR {
          err := Some(f.msg);
          return;
        } else if f.stat == STOP_NOOP || f.stat == STOP_CLOSE_SEND {
          return;
        }
        i := i + 1;
      }
    }
  }
}
