/** No packet that the server enqueues is lost or made up: each is taken over by one routine that processes it. */
module Conservation {
  import opened Relay
  import opened Lifecycle
  import opened Leftovers

  /** Who took over what: for each routine that was started by a hand-over, the routine that handed over, and which of
    its outcomes that was. */
  type LinkMap = map<nat, (nat, nat)>

  function LinkOf(s: Server, step: Step): LinkMap {
    if step.HandOver? && Enabled(s, step) then map[step.r' := (step.r, |s.jobs[step.r].done|)] else map[]
  }

  function AllLinks(e: Env, s: Server, steps: seq<Step>): LinkMap {
    if steps == [] then map[]
    else AllLinks(e, s, steps[..|steps| - 1]) + LinkOf(Exec(e, s, steps[..|steps| - 1]), steps[|steps| - 1])
  }

  predicate IsEnqueued(jobs: map<nat, Job>, r: nat, k: nat) {
    r in jobs && k < |jobs[r].done| && jobs[r].done[k].Enqueued?
  }

  predicate Taken(jobs: map<nat, Job>, x: nat) {
    x in jobs && jobs[x].start.FromQueue?
  }

  /** The link leads from a routine to the outcome of another that enqueued the very packet it was started with. */
  predicate Links(m: LinkMap, jobs: map<nat, Job>, x: nat) {
    && x in m && Taken(jobs, x) && IsEnqueued(jobs, m[x].0, m[x].1)
    && jobs[m[x].0].done[m[x].1].o == jobs[x].start.o
  }

  predicate IsLinked(m: LinkMap, r: nat, k: nat) {
    exists x :: x in m && m[x] == (r, k)
  }

  ghost predicate Linked(m: LinkMap, jobs: map<nat, Job>) {
    && (forall x :: Taken(jobs, x) ==> x in m)
    && (forall x :: x in m ==> Links(m, jobs, x))
    && (forall x, y :: x in m && y in m && m[x] == m[y] ==> x == y)
    && (forall r: nat, k: nat :: IsEnqueued(jobs, r, k) ==> IsLinked(m, r, k))
  }

  /** A step that starts no routine from the queue and records no enqueued packet. */
  ghost predicate Quiet(jobs: map<nat, Job>, jobs': map<nat, Job>) {
    && (forall x :: x in jobs ==> x in jobs' && jobs'[x].start == jobs[x].start && jobs[x].done <= jobs'[x].done)
    && (forall x :: Taken(jobs', x) ==> Taken(jobs, x))
    && (forall r: nat, k: nat :: IsEnqueued(jobs', r, k) ==> IsEnqueued(jobs, r, k))
  }

  lemma QuietKeeps(m: LinkMap, jobs: map<nat, Job>, jobs': map<nat, Job>)
    requires Linked(m, jobs) && Quiet(jobs, jobs')
    ensures Linked(m, jobs')
  {
    forall x | x in m
      ensures Links(m, jobs', x)
    {
      assert Links(m, jobs, x);
    }
    assert forall r: nat, k: nat :: IsEnqueued(jobs', r, k) ==> IsLinked(m, r, k);
  }

  lemma OthersAreQuiet(e: Env, s: Server, step: Step)
    requires !step.HandOver?
    ensures Quiet(s.jobs, Do(e, s, step).jobs)
  {
    var jobs' := Do(e, s, step).jobs;
    if step.Arrive? || step.Seal? || step.Write? {
      forall x | x in jobs'
        ensures x in s.jobs ==> s.jobs[x].done <= jobs'[x].done
        ensures forall k: nat :: IsEnqueued(jobs', x, k) ==> IsEnqueued(s.jobs, x, k)
      {
        OtherJobs(e, s, step, x);
      }
      StartsStay(e, s, step);
    } else {
      QuietJobs(e, s, step);
    }
  }

  lemma StartsStay(e: Env, s: Server, step: Step)
    requires step.Arrive? || step.Seal? || step.Write?
    ensures var jobs' := Do(e, s, step).jobs;
            && (forall x :: x in s.jobs ==> x in jobs' && jobs'[x].start == s.jobs[x].start)
            && (forall x :: x in jobs' && x !in s.jobs ==> jobs'[x].start.FromNet?)
  {
  }

  /** What the hand-over records: one more outcome of `r`, and a new routine `r'`. */
  lemma HandOverJobs(s: Server, r: nat, r': nat)
    requires Enabled(s, HandOver(r, r'))
    ensures var n, jobs' := |s.jobs[r].done|, DoHandOver(s, r, r', s.routines[r]).jobs;
            && IsEnqueued(jobs', r, n) && Taken(jobs', r') && jobs'[r].done[n].o == jobs'[r'].start.o
            && (forall x: nat :: Taken(jobs', x) ==> x == r' || Taken(s.jobs, x))
            && (forall a: nat, k: nat :: IsEnqueued(jobs', a, k) ==> (a == r && k == n) || IsEnqueued(s.jobs, a, k))
            && (forall x: nat :: x in s.jobs ==>
                  x != r' && x in jobs' && jobs'[x].start == s.jobs[x].start && s.jobs[x].done <= jobs'[x].done)
  {
  }

  lemma LinkOneMore(m: LinkMap, jobs: map<nat, Job>, jobs': map<nat, Job>, r: nat, n: nat, r': nat)
    requires Linked(m, jobs) && r' !in jobs && !IsEnqueued(jobs, r, n)
    requires IsEnqueued(jobs', r, n) && Taken(jobs', r') && jobs'[r].done[n].o == jobs'[r'].start.o
    requires forall x: nat :: Taken(jobs', x) ==> x == r' || Taken(jobs, x)
    requires forall a: nat, k: nat :: IsEnqueued(jobs', a, k) ==> (a == r && k == n) || IsEnqueued(jobs, a, k)
    requires forall x: nat :: x in jobs ==>
               x != r' && x in jobs' && jobs'[x].start == jobs[x].start && jobs[x].done <= jobs'[x].done
    ensures Linked(m[r' := (r, n)], jobs')
  {
    var m' := m[r' := (r, n)];
    forall x | x in m'
      ensures Links(m', jobs', x)
    {
      if x != r' {
        assert Links(m, jobs, x);
      }
    }
    forall x, y | x in m' && y in m' && m'[x] == m'[y]
      ensures x == y
    {
      assert x != r' ==> Links(m, jobs, x);
      assert y != r' ==> Links(m, jobs, y);
    }
    forall a: nat, k: nat | IsEnqueued(jobs', a, k)
      ensures IsLinked(m', a, k)
    {
      if a == r && k == n {
        assert m'[r'] == (a, k);
      } else {
        assert IsLinked(m, a, k);
        var x :| x in m && m[x] == (a, k);
        assert Links(m, jobs, x) && m'[x] == (a, k);
      }
    }
  }

  lemma HandOverLinks(m: LinkMap, s: Server, r: nat, r': nat)
    requires Linked(m, s.jobs) && Enabled(s, HandOver(r, r'))
    ensures Linked(m + LinkOf(s, HandOver(r, r')), DoHandOver(s, r, r', s.routines[r]).jobs)
  {
    HandOverJobs(s, r, r');
    assert m + LinkOf(s, HandOver(r, r')) == m[r' := (r, |s.jobs[r].done|)];
    LinkOneMore(m, s.jobs, DoHandOver(s, r, r', s.routines[r]).jobs, r, |s.jobs[r].done|, r');
  }

  /** Conservation of queued packets, in every interleaving: the links pair off, one to one, the outcomes by which
    routines enqueued a packet with the routines that process packets from the queue; and each such routine was
    started with the very packet that was enqueued. So nothing that is enqueued is lost, sent twice or made up. */
  lemma {:induction false} QueueConserved(e: Env, s: Server, steps: seq<Step>)
    requires Idle(s)
    ensures Linked(AllLinks(e, s, steps), Exec(e, s, steps).jobs)
  {
    if steps != [] {
      var before, last := steps[..|steps| - 1], steps[|steps| - 1];
      var t, m := Exec(e, s, before), AllLinks(e, s, before);
      QueueConserved(e, s, before);
      if last.HandOver? && Enabled(t, last) {
        HandOverLinks(m, t, last.r, last.r');
      } else {
        assert m + LinkOf(t, last) == m;
        if !last.HandOver? {
          OthersAreQuiet(e, t, last);
          QuietKeeps(m, t.jobs, Exec(e, s, steps).jobs);
        }
      }
    }
  }
}
