/** Pacing of reads and writes: the time per operation, the loop that keeps to it, and the rate this amounts to. */
module Throttle {
  const SEC := 1_000_000_000
  const TWO63 := 0x8000_0000_0000_0000
  const TWO64 := 0x1_0000_0000_0000_0000

  type Rate = r: nat | r < TWO64

  // ---------- 64-bit arithmetic ----------

  /** The signed 64-bit number with the bits of `x`. */
  function Signed(x: int): int {
    var m := x % TWO64;
    if m < TWO63 then m else m - TWO64
  }

  function Unsigned(x: int): Rate {
    x % TWO64
  }

  /** Division that truncates toward zero. */
  function Quotient(a: nat, b: int): int
    requires b != 0
  {
    if b > 0 then a / b else -(a / -b)
  }

  function TimePerOp(r: Rate): int
    requires r > 0
  {
    Quotient(SEC, Signed(r))
  }

  function Scaled(r: Rate, f: nat): Rate {
    Unsigned(Signed(Signed(r) * f))
  }

  /** Up to the largest signed number the time per operation is the plain quotient; beyond, it is zero or negative,
    and so is it from one operation per nanosecond on: then nothing is throttled. */
  lemma TimePerOpIs(r: Rate)
    requires r > 0
    ensures r < TWO63 ==> TimePerOp(r) == SEC / r
    ensures r > SEC ==> TimePerOp(r) <= 0
    ensures TimePerOp(r) > 0 <==> r <= SEC
  {
  }

  /** Scaling multiplies, as long as the product is a signed number. */
  lemma ScaledIs(r: Rate, f: nat)
    requires r < TWO63 && r * f < TWO63
    ensures Scaled(r, f) == r * f
  {
  }

  /** A higher rate never gets more time per operation. */
  lemma TimePerOpAntitone(r: Rate, limit: Rate)
    requires 0 < r <= limit <= SEC
    ensures TimePerOp(r) >= TimePerOp(limit)
  {
    TimePerOpIs(r);
    TimePerOpIs(limit);
    DivAntitone(SEC, r, limit);
  }

  lemma MulMono(b: nat, x: nat, y: nat)
    requires x <= y
    ensures b * x <= b * y
  {
  }

  lemma MulLess(b: nat, x: nat, y: nat)
    requires b * x < b * y
    ensures x < y
  {
    if y <= x {
      MulMono(b, y, x);
    }
  }

  lemma DivAtLeast(a: nat, m: nat, n: nat)
    requires m > 0 && m * n <= a
    ensures n <= a / m
  {
    assert a < m * (a / m) + m;
    assert m * (a / m + 1) == m * (a / m) + m;
    MulLess(m, n, a / m + 1);
  }

  lemma DivAntitone(a: nat, b: nat, c: nat)
    requires 0 < b <= c
    ensures a / b >= a / c
  {
    assert c * (a / c) <= a;
    MulMono(a / c, b, c);
    DivAtLeast(a, b, a / c);
  }

  // ---------- the loop over time ----------

  /** Between operations, in one since `start`, or asleep until a time. */
  datatype Phase = Idle | Busy(start: nat) | Asleep(until: nat)

  /** `starts` are the times at which operations began, and `limits` the times per operation they were held to. */
  datatype Loop = Loop(now: nat, rate: Rate, phase: Phase, starts: seq<nat>, limits: seq<int>)

  datatype Step = Begin | Finish | Wake | Tick(ns: nat) | SetTo(r: Rate) | ScaleBy(f: nat)

  /** Time passes only in ticks; a sleeper wakes when its time has come or later; the rate may change at any moment to
    any rate for which there is a time per operation. */
  function Do(l: Loop, step: Step): Loop {
    match step
    case Begin => if l.phase.Idle? then l.(phase := Busy(l.now), starts := l.starts + [l.now]) else l
    case Finish =>
      if !l.phase.Busy? || l.rate == 0 || l.now < l.phase.start then l
      else
        var tpo := TimePerOp(l.rate);
        var remaining := tpo - (l.now - l.phase.start);
        l.(phase := if remaining > 0 then Asleep(l.now + remaining) else Idle, limits := l.limits + [tpo])
    case Wake => if l.phase.Asleep? && l.now >= l.phase.until then l.(phase := Idle) else l
    case Tick(ns) => l.(now := l.now + ns)
    case SetTo(r) => if r > 0 then l.(rate := r) else l
    case ScaleBy(f) => if f < 256 && Scaled(l.rate, f) > 0 then l.(rate := Scaled(l.rate, f)) else l
  }

  function Init(r: Rate): Loop {
    Loop(0, r, Idle, [], [])
  }

  function Exec(l: Loop, steps: seq<Step>): Loop {
    if steps == [] then l else Do(Exec(l, steps[..|steps| - 1]), steps[|steps| - 1])
  }

  /** Operation `i` began late enough after the one before. */
  predicate Apart(l: Loop, i: int)
    requires 0 < i < |l.starts| && |l.limits| >= |l.starts| - 1
  {
    l.starts[i] >= l.starts[i - 1] + l.limits[i - 1] && l.starts[i] >= l.starts[i - 1]
  }

  ghost predicate Paced(l: Loop) {
    && l.rate > 0
    && |l.limits| == (if l.phase.Busy? then |l.starts| - 1 else |l.starts|)
    && (forall i :: 0 < i < |l.starts| ==> Apart(l, i))
    && (l.starts != [] ==> l.now >= l.starts[|l.starts| - 1])
    && (l.phase.Busy? ==> l.starts != [] && l.phase.start == l.starts[|l.starts| - 1])
    && (l.phase.Asleep? ==> l.starts != [] && l.phase.until >= l.starts[|l.starts| - 1] + l.limits[|l.starts| - 1])
    && (l.phase.Idle? && l.starts != [] ==> l.now >= l.starts[|l.starts| - 1] + l.limits[|l.starts| - 1])
  }

  lemma StepPaced(l: Loop, step: Step)
    requires Paced(l)
    ensures Paced(Do(l, step))
  {
    var l' := Do(l, step);
    forall i | 0 < i < |l'.starts|
      ensures Apart(l', i)
    {
      if i < |l.starts| {
        assert Apart(l, i);
      }
    }
  }

  lemma {:induction false} RunPaced(r: Rate, steps: seq<Step>)
    requires r > 0
    ensures Paced(Exec(Init(r), steps))
  {
    if steps != [] {
      RunPaced(r, steps[..|steps| - 1]);
      StepPaced(Exec(Init(r), steps[..|steps| - 1]), steps[|steps| - 1]);
    }
  }

  // ---------- counting starts in a window ----------

  /** How many of the times lie in the half-open window. */
  function Count(ts: seq<nat>, from: nat, to: nat): nat {
    if ts == [] then 0
    else Count(ts[..|ts| - 1], from, to) + if from <= ts[|ts| - 1] < to then 1 else 0
  }

  predicate Spaced(ts: seq<nat>, m: nat) {
    forall i :: 0 < i < |ts| ==> ts[i] >= ts[i - 1] + m
  }

  function CeilDiv(a: nat, b: nat): nat
    requires b > 0
  {
    (a + b - 1) / b
  }

  lemma {:induction false} Increasing(ts: seq<nat>, m: nat, i: nat, j: nat)
    requires Spaced(ts, m) && i <= j < |ts|
    ensures ts[j] >= ts[i] + (j - i) * m
    decreases j
  {
    if i < j {
      Increasing(ts, m, i, j - 1);
      assert ts[j] >= ts[j - 1] + m;
      assert (j - i) * m == (j - 1 - i) * m + m;
    }
  }

  lemma {:induction false} Ordered(ts: seq<nat>, m: nat, i: nat, j: nat)
    requires Spaced(ts, m) && i <= j < |ts|
    ensures ts[j] >= ts[i]
    decreases j
  {
    if i < j {
      Ordered(ts, m, i, j - 1);
    }
  }

  /** `n` consecutive times from `k` on lie in the window. */
  predicate Within(ts: seq<nat>, k: int, n: nat, from: nat, to: nat) {
    n > 0 ==> 0 <= k && k + n <= |ts| && ts[k] >= from && ts[k + n - 1] < to
  }

  /** There are as many consecutive times in the window as are counted. */
  lemma {:induction false} CountSpan(ts: seq<nat>, m: nat, from: nat, to: nat) returns (k: int)
    requires Spaced(ts, m)
    ensures Within(ts, k, Count(ts, from, to), from, to)
    decreases |ts|
  {
    k := 0;
    if ts != [] {
      var last := |ts| - 1;
      var rest := ts[..last];
      k := CountSpan(rest, m, from, to);
      var n := Count(ts, from, to);
      if from <= ts[last] < to {
        if n == 1 {
          k := last;
        } else {
          Ordered(ts, m, k, last + 1 - n);
          k := last + 1 - n;
        }
      }
    }
  }

  /** A window of `width` holds at most `width / m` times, rounded up, if they are at least `m` apart. */
  lemma WindowBound(ts: seq<nat>, m: nat, from: nat, width: nat)
    requires Spaced(ts, m) && m > 0
    ensures Count(ts, from, from + width) <= CeilDiv(width, m)
  {
    var n := Count(ts, from, from + width);
    var k := CountSpan(ts, m, from, from + width);
    if n > 0 {
      Increasing(ts, m, k, k + n - 1);
      assert (n - 1) * m < width;
      CeilAbove(n, m, width);
    }
  }

  lemma CeilAbove(n: nat, m: nat, width: nat)
    requires m > 0 && n > 0 && (n - 1) * m < width
    ensures n <= CeilDiv(width, m)
  {
    assert m * n == (n - 1) * m + m;
    DivAtLeast(width + m - 1, m, n);
  }

  // ---------- the bound on a run ----------

  ghost predicate LimitsAtLeast(l: Loop, m: nat) {
    forall i :: 0 <= i < |l.limits| ==> l.limits[i] >= m
  }

  /** In any run, with the rate changing at any moment, operations begin at least the time per operation apart that
    was in force when the earlier one was held; so a window holds at most its width divided by the smallest such time,
    rounded up. */
  lemma PacedWindow(r: Rate, steps: seq<Step>, m: nat, from: nat, width: nat)
    requires r > 0 && m > 0 && LimitsAtLeast(Exec(Init(r), steps), m)
    ensures var l := Exec(Init(r), steps);
            && |l.limits| >= |l.starts| - 1
            && (forall i :: 0 < i < |l.starts| ==> l.starts[i] >= l.starts[i - 1] + l.limits[i - 1])
            && Count(l.starts, from, from + width) <= CeilDiv(width, m)
  {
    var l := Exec(Init(r), steps);
    RunPaced(r, steps);
    forall i | 0 < i < |l.starts|
      ensures l.starts[i] >= l.starts[i - 1] + l.limits[i - 1]
      ensures l.starts[i] >= l.starts[i - 1] + m
    {
      assert Apart(l, i);
    }
    WindowBound(l.starts, m, from, width);
  }

  // ---------- the rate in force ----------

  /** The step asks for this rate, which has a time per operation. */
  predicate AsksFor(step: Step, r: Rate) {
    step == SetTo(r) && r > 0
  }

  /** The factors by which the steps scale, multiplied. */
  function Factor(steps: seq<Step>): nat
    decreases |steps|
  {
    if steps == [] then 1 else (if steps[0].ScaleBy? then steps[0].f else 1) * Factor(steps[1..])
  }

  /** No step asks for a rate, and all scale by a positive factor of a byte. */
  predicate OnlyScales(steps: seq<Step>) {
    forall i :: 0 <= i < |steps| ==> !steps[i].SetTo? && (steps[i].ScaleBy? ==> 0 < steps[i].f < 256)
  }

  lemma {:induction false} ExecCons(l: Loop, steps: seq<Step>)
    requires steps != []
    ensures Exec(l, steps) == Exec(Do(l, steps[0]), steps[1..])
  {
    if |steps| == 1 {
      assert steps[..0] == [] && steps[1..] == [];
      assert Exec(l, []) == l;
    } else {
      ExecCons(l, steps[..|steps| - 1]);
      assert steps[..|steps| - 1][1..] == steps[1..][..|steps| - 2];
      assert steps[1..][|steps| - 2] == steps[|steps| - 1];
    }
  }

  lemma {:induction false} FactorPositive(steps: seq<Step>)
    requires OnlyScales(steps)
    ensures Factor(steps) > 0
  {
    if steps != [] {
      FactorPositive(steps[1..]);
      MulMono(if steps[0].ScaleBy? then steps[0].f else 1, 1, Factor(steps[1..]));
    }
  }

  lemma ScaledOnce(r: nat, f: nat, rest: nat)
    requires f > 0 && rest > 0 && r * (f * rest) < TWO63
    ensures r * f < TWO63 && (r * f) * rest == r * (f * rest)
  {
    MulMono(r * f, 1, rest);
    assert (r * f) * rest == r * (f * rest);
  }

  lemma {:induction false} ScalesMultiply(l: Loop, steps: seq<Step>)
    requires OnlyScales(steps) && l.rate > 0 && l.rate * Factor(steps) < TWO63
    ensures Exec(l, steps).rate == l.rate * Factor(steps)
    decreases |steps|
  {
    if steps != [] {
      var f, rest := if steps[0].ScaleBy? then steps[0].f else 1, Factor(steps[1..]);
      FactorPositive(steps[1..]);
      ScaledOnce(l.rate, f, rest);
      MulMono(l.rate, 1, f);
      ScaledIs(l.rate, f);
      ExecCons(l, steps);
      ScalesMultiply(Do(l, steps[0]), steps[1..]);
    }
  }

  lemma {:induction false} ExecFrom(l: Loop, steps: seq<Step>, n: nat)
    requires n <= |steps|
    ensures Exec(l, steps) == Exec(Exec(l, steps[..n]), steps[n..])
    decreases |steps| - n
  {
    if n == |steps| {
      assert steps[..n] == steps && steps[n..] == [];
    } else {
      ExecFrom(l, steps, n + 1);
      ExecCons(Exec(l, steps[..n]), steps[n..]);
      assert steps[..n + 1][..n] == steps[..n] && steps[n..][1..] == steps[n + 1..];
    }
  }

  /** The rate in force after any steps: the one that was asked for last, in the step before `n`, or the first rate if
    there was none, times all the factors since, as long as that is a signed number. */
  lemma RateInForce(r: Rate, steps: seq<Step>, n: nat, asked: Rate)
    requires n <= |steps| && asked > 0 && (if n == 0 then asked == r else AsksFor(steps[n - 1], asked))
    requires OnlyScales(steps[n..]) && asked * Factor(steps[n..]) < TWO63
    ensures Exec(Init(r), steps).rate == asked * Factor(steps[n..])
  {
    ExecFrom(Init(r), steps, n);
    if n > 0 {
      assert steps[..n][..n - 1] == steps[..n - 1];
    }
    ScalesMultiply(Exec(Init(r), steps[..n]), steps[n..]);
  }

  /** The rate that the steps ask for in the end: the latest, scaled since, where a change to a rate without a time per
    operation does not count. */
  function RateAsked(r: Rate, steps: seq<Step>): Rate {
    if steps == [] then r
    else
      var before, last := RateAsked(r, steps[..|steps| - 1]), steps[|steps| - 1];
      if last.SetTo? && last.r > 0 then last.r
      else if last.ScaleBy? && last.f < 256 && Scaled(before, last.f) > 0 then Scaled(before, last.f)
      else before
  }

  lemma {:induction false} AskedIsInForce(r: Rate, steps: seq<Step>)
    ensures Exec(Init(r), steps).rate == RateAsked(r, steps)
  {
    if steps != [] {
      AskedIsInForce(r, steps[..|steps| - 1]);
    }
  }

  /** Every rate that the steps ask for is at most the limit. */
  predicate WithinLimit(r: Rate, steps: seq<Step>, limit: Rate) {
    forall i :: 0 <= i <= |steps| ==> RateAsked(r, steps[..i]) <= limit
  }

  lemma WithinBefore(r: Rate, steps: seq<Step>, limit: Rate)
    requires steps != [] && WithinLimit(r, steps, limit)
    ensures WithinLimit(r, steps[..|steps| - 1], limit) && Exec(Init(r), steps[..|steps| - 1]).rate <= limit
  {
    var before := steps[..|steps| - 1];
    forall i | 0 <= i <= |before|
      ensures RateAsked(r, before[..i]) <= limit
    {
      assert before[..i] == steps[..i];
    }
    assert before[..|before|] == before;
    AskedIsInForce(r, before);
  }

  lemma {:induction false} LimitsFromRates(r: Rate, steps: seq<Step>, limit: Rate)
    requires 0 < limit <= SEC && 0 < r && WithinLimit(r, steps, limit)
    ensures LimitsAtLeast(Exec(Init(r), steps), TimePerOp(limit))
  {
    TimePerOpIs(limit);
    if steps != [] {
      var before := steps[..|steps| - 1];
      WithinBefore(r, steps, limit);
      LimitsFromRates(r, before, limit);
      RunPaced(r, before);
      TimePerOpAntitone(Exec(Init(r), before).rate, limit);
    }
  }

  /** What truncation adds to a rate: nothing exactly when the rate divides a second. */
  function Excess(r: Rate): nat
    requires 0 < r <= SEC
  {
    CeilDiv(SEC % r, SEC / r)
  }

  lemma CeilOfSum(k: nat, m: nat, s: nat)
    requires m > 0
    ensures CeilDiv(k * m + s, m) == k + CeilDiv(s, m)
  {
    var a := s + m - 1;
    assert k * m + s + m - 1 == k * m + a;
    DivOfSum(k, m, a);
  }

  lemma DivOfSum(k: nat, m: nat, a: nat)
    requires m > 0
    ensures (k * m + a) / m == k + a / m
  {
    assert m * k == k * m;
    assert m * (k + a / m) == k * m + m * (a / m);
    DivAtLeast(k * m + a, m, k + a / m);
    assert a < m * (a / m) + m;
    assert m * ((k * m + a) / m) <= k * m + a;
    assert m * (k + a / m + 1) == k * m + m * (a / m) + m;
    MulLess(m, (k * m + a) / m, k + a / m + 1);
  }

  lemma SecondHolds(r: Rate)
    requires 0 < r <= SEC
    ensures CeilDiv(SEC, SEC / r) == r + Excess(r)
    ensures Excess(r) == 0 <==> SEC % r == 0
  {
    var m, s := SEC / r, SEC % r;
    assert m > 0 by { DivAtLeast(SEC, r, 1); }
    assert SEC == r * m + s;
    CeilOfSum(r, m, s);
    if s > 0 {
      CeilAbove(1, m, s);
    } else {
      assert (m - 1) / m == 0;
    }
  }

  /** The rate bound: in a run whose rates never exceed a limit of at most one operation per nanosecond, whatever
    changes of rate it makes, every second holds at most that many operations plus the excess of truncation. */
  lemma RateBound(r: Rate, steps: seq<Step>, limit: Rate, from: nat)
    requires 0 < r && 0 < limit <= SEC && WithinLimit(r, steps, limit)
    ensures Count(Exec(Init(r), steps).starts, from, from + SEC) <= limit + Excess(limit)
  {
    LimitsFromRates(r, steps, limit);
    TimePerOpIs(limit);
    PacedWindow(r, steps, TimePerOp(limit), from, SEC);
    SecondHolds(limit);
  }

  // ---------- the throttle object ----------

  /** The throttle with one of its loops. Time is what passes between the calls; `starts` and `limits` are its
    history. */
  class UDPThrottle {
    var rate: Rate
    var tpo: int
    var now: nat
    var phase: Phase
    ghost var starts: seq<nat>
    ghost var limits: seq<int>

    /** The stored time per operation belongs to the rate, and the loop has kept to it so far. */
    ghost predicate Valid()
      reads this
    {
      rate > 0 && tpo == TimePerOp(rate) && Paced(View())
    }

    ghost function View(): Loop
      reads this
    {
      Loop(now, rate, phase, starts, limits)
    }

    constructor (initial: Rate)
      requires initial > 0
      ensures Valid() && View() == Init(initial) && rate == initial && now == 0 && phase == Idle && starts == []
    {
      rate := initial;
      tpo := Quotient(SEC, Signed(initial));
      now, phase, starts, limits := 0, Idle, [], [];
    }

    method SetThroughput(r: Rate)
      requires Valid() && r > 0
      modifies `rate, `tpo
      ensures Valid() && View() == Do(old(View()), SetTo(r))
      ensures rate == r && (if r < TWO63 then tpo == SEC / r else tpo <= 0)
    {
      TimePerOpIs(r);
      StepPaced(View(), SetTo(r));
      rate := r;
      tpo := Quotient(SEC, Signed(r));
    }

    /** Scaling multiplies the rate as long as the product is a signed 64-bit number, and wraps around beyond. */
    method ScaleThroughput(f: nat)
      requires Valid() && f < 256 && Scaled(rate, f) != 0
      modifies `rate, `tpo
      ensures Valid() && View() == Do(old(View()), ScaleBy(f))
      ensures old(rate) * f < TWO63 && f > 0 ==> rate == old(rate) * f && tpo == SEC / rate
    {
      StepPaced(View(), ScaleBy(f));
      if rate * f < TWO63 && f > 0 {
        MulMono(rate, 1, f);
        ScaledIs(rate, f);
        TimePerOpIs(Scaled(rate, f));
      }
      rate := Unsigned(Signed(Signed(rate) * f));
      tpo := Quotient(SEC, Signed(rate));
    }

    /** How long to sleep after an operation that took `dur`. */
    method RemainingTime(dur: nat) returns (sleep: nat)
      requires Valid()
      ensures sleep == if TimePerOp(rate) > dur then TimePerOp(rate) - dur else 0
      ensures dur + sleep >= TimePerOp(rate)
    {
      var remaining := tpo - dur;
      sleep := if remaining > 0 then remaining else 0;
    }

    /** An operation begins. */
    method Start()
      requires Valid() && phase.Idle?
      modifies `phase, `starts
      ensures Valid() && View() == Do(old(View()), Begin)
      ensures phase == Busy(now) && starts == old(starts) + [now]
    {
      StepPaced(View(), Begin);
      phase := Busy(now);
      starts := starts + [now];
    }

    /** An operation has ended, and the loop sleeps for what is left of its time. */
    method ThrottleOperation()
      requires Valid() && phase.Busy? && now >= phase.start
      modifies `phase, `limits
      ensures Valid() && View() == Do(old(View()), Finish)
      ensures limits == old(limits) + [tpo]
      ensures phase == if now - old(phase.start) < tpo then Asleep(old(phase.start) + tpo) else Idle
    {
      StepPaced(View(), Finish);
      var sleep := RemainingTime(now - phase.start);
      limits := limits + [tpo];
      phase := if sleep > 0 then Asleep(now + sleep) else Idle;
    }

    /** One step of the loop, if it can be taken. */
    method Advance(step: Step)
      requires Valid()
      modifies this
      ensures Valid() && View() == Do(old(View()), step)
    {
      StepPaced(View(), step);
      match step
      case Begin =>
        if phase.Idle? {
          Start();
        }
      case Finish =>
        if phase.Busy? && now >= phase.start {
          ThrottleOperation();
        }
      case Wake =>
        if phase.Asleep? && now >= phase.until {
          phase := Idle;
        }
      case Tick(ns) => now := now + ns;
      case SetTo(r) =>
        if r > 0 {
          SetThroughput(r);
        }
      case ScaleBy(f) =>
        if f < 256 && Scaled(rate, f) > 0 {
          ScaleThroughput(f);
        }
    }

    /** Whatever the operations, the passing of time and the changes of rate, the object goes through the states of the
      loop; so it stays paced, and all bounds on runs hold of it. */
    method Play(steps: seq<Step>)
      requires Valid()
      modifies this
      ensures Valid() && View() == Exec(old(View()), steps)
    {
      ghost var initial := View();
      for k := 0 to |steps|
        invariant Valid() && View() == Exec(initial, steps[..k])
      {
        assert steps[..k + 1][..k] == steps[..k];
        Advance(steps[k]);
      }
      assert steps[..|steps|] == steps;
    }

    /** A second holds at most the limit and the excess of truncation, if no rate of the run is above the limit. */
    method PlayWithin(steps: seq<Step>, limit: Rate, from: nat)
      requires Valid() && View() == Init(rate) && 0 < limit <= SEC && WithinLimit(rate, steps, limit)
      modifies this
      ensures Valid() && Count(starts, from, from + SEC) <= limit + Excess(limit)
    {
      RateBound(rate, steps, limit, from);
      Play(steps);
    }
  }

  // ---------- the bound is reached ----------

  /** Operations that take no time, each followed by exactly the sleep that is asked for. */
  function TightSteps(m: nat, n: nat): seq<Step> {
    if n == 0 then [] else TightSteps(m, n - 1) + [Begin, Finish, Tick(m), Wake]
  }

  lemma {:induction false} ExecAppend(l: Loop, p: seq<Step>, q: seq<Step>)
    ensures Exec(l, p + q) == Exec(Exec(l, p), q)
    decreases |q|
  {
    if q == [] {
      assert p + q == p;
    } else {
      var n := |q| - 1;
      ExecAppend(l, p, q[..n]);
      assert (p + q)[..|p| + n] == p + q[..n];
    }
  }

  function Multiples(m: nat, n: nat): seq<nat> {
    if n == 0 then [] else Multiples(m, n - 1) + [(n - 1) * m]
  }

  lemma TightRound(l: Loop, m: nat)
    requires l.phase.Idle? && l.rate > 0 && TimePerOp(l.rate) == m && m > 0
    ensures var l' := Exec(l, [Begin, Finish, Tick(m), Wake]);
            l'.now == l.now + m && l'.rate == l.rate && l'.phase.Idle? && l'.starts == l.starts + [l.now]
  {
    var a := [Begin, Finish, Tick(m), Wake];
    assert a[..3] == [Begin, Finish, Tick(m)] && a[..3][..2] == [Begin, Finish] && a[..3][..2][..1] == [Begin];
    assert Exec(l, [Begin]) == Do(l, Begin) by { assert [Begin][..0] == []; }
    assert Exec(l, [Begin, Finish]) == Do(Do(l, Begin), Finish);
    assert Exec(l, [Begin, Finish, Tick(m)]) == Do(Do(Do(l, Begin), Finish), Tick(m));
    assert Exec(l, a) == Do(Do(Do(Do(l, Begin), Finish), Tick(m)), Wake);
  }

  lemma {:induction false} TightRun(r: Rate, n: nat)
    requires 0 < r <= SEC
    ensures TimePerOp(r) > 0
    ensures var l := Exec(Init(r), TightSteps(TimePerOp(r), n));
            l.now == n * TimePerOp(r) && l.rate == r && l.phase.Idle? && l.starts == Multiples(TimePerOp(r), n)
  {
    TimePerOpIs(r);
    if n > 0 {
      TightRun(r, n - 1);
      var m := TimePerOp(r);
      ExecAppend(Init(r), TightSteps(m, n - 1), [Begin, Finish, Tick(m), Wake]);
      TightRound(Exec(Init(r), TightSteps(m, n - 1)), m);
      assert n * m == (n - 1) * m + m;
    }
  }

  lemma {:induction false} CountMultiples(m: nat, n: nat, width: nat)
    requires n > 0 ==> (n - 1) * m < width
    ensures Count(Multiples(m, n), 0, width) == n
  {
    if n > 0 {
      assert n > 1 ==> (n - 1) * m == (n - 2) * m + m;
      CountMultiples(m, n - 1, width);
      assert Multiples(m, n)[..n - 1] == Multiples(m, n - 1) by { MultiplesLength(m, n - 1); }
      MultiplesLength(m, n);
    }
  }

  lemma {:induction false} MultiplesLength(m: nat, n: nat)
    ensures |Multiples(m, n)| == n
  {
    if n > 0 {
      MultiplesLength(m, n - 1);
    }
  }

  lemma CeilBelow(m: nat, width: nat)
    requires m > 0 && width > 0
    ensures CeilDiv(width, m) > 0 && (CeilDiv(width, m) - 1) * m < width
  {
    var n := CeilDiv(width, m);
    CeilAbove(1, m, width);
    assert m * n <= width + m - 1;
    assert (n - 1) * m == m * n - m;
  }

  predicate NoChange(steps: seq<Step>) {
    forall i :: 0 <= i < |steps| ==> !steps[i].SetTo? && !steps[i].ScaleBy?
  }

  lemma {:induction false} RateStays(l: Loop, steps: seq<Step>)
    requires NoChange(steps)
    ensures Exec(l, steps).rate == l.rate
  {
    if steps != [] {
      RateStays(l, steps[..|steps| - 1]);
    }
  }

  lemma {:induction false} TightNoChange(m: nat, n: nat)
    ensures NoChange(TightSteps(m, n))
  {
    if n > 0 {
      TightNoChange(m, n - 1);
    }
  }

  /** What a rate promises: no run at that rate has more operations in any second. */
  ghost predicate Promised(r: Rate) {
    forall steps, from | NoChange(steps) :: InSecond(r, steps, from) <= r
  }

  function InSecond(r: Rate, steps: seq<Step>, from: nat): nat {
    Count(Exec(Init(r), steps).starts, from, from + SEC)
  }

  lemma ConstantWithin(r: Rate, steps: seq<Step>)
    requires NoChange(steps)
    ensures WithinLimit(r, steps, r)
  {
    forall i | 0 <= i <= |steps|
      ensures RateAsked(r, steps[..i]) <= r
    {
      RateStays(Init(r), steps[..i]);
      AskedIsInForce(r, steps[..i]);
    }
  }

  lemma FreeRound(l: Loop)
    requires l.phase.Idle? && l.rate > SEC && l.now == 0
    ensures var l' := Exec(l, [Begin, Finish]);
            && l'.now == 0 && l'.rate == l.rate && l'.phase.Idle?
            && (forall to :: to > 0 ==> Count(l'.starts, 0, to) == Count(l.starts, 0, to) + 1)
  {
    TimePerOpIs(l.rate);
    assert [Begin, Finish][..1] == [Begin] && [Begin][..0] == [];
    assert Exec(l, [Begin]) == Do(l, Begin);
    assert Exec(l, [Begin, Finish]) == Do(Do(l, Begin), Finish);
    assert (l.starts + [0])[..|l.starts|] == l.starts;
  }

  /** Beyond one operation per nanosecond there is no bound at all: any number of operations may begin at the same
    instant. */
  lemma {:induction false} Unthrottled(r: Rate, n: nat) returns (steps: seq<Step>)
    requires r > SEC
    ensures NoChange(steps)
    ensures var l := Exec(Init(r), steps);
            l.now == 0 && l.rate == r && l.phase.Idle? && forall to :: to > 0 ==> Count(l.starts, 0, to) == n
  {
    steps := [];
    if n > 0 {
      var before := Unthrottled(r, n - 1);
      steps := before + [Begin, Finish];
      ExecAppend(Init(r), before, [Begin, Finish]);
      FreeRound(Exec(Init(r), before));
    }
  }

  /** Up to one operation per nanosecond, some run reaches exactly the rate plus the excess. */
  lemma BoundReached(r: Rate)
    requires 0 < r <= SEC
    ensures exists steps :: NoChange(steps) && InSecond(r, steps, 0) == r + Excess(r)
  {
    TimePerOpIs(r);
    SecondHolds(r);
    var m := TimePerOp(r);
    var n := r + Excess(r);
    CeilBelow(m, SEC);
    TightRun(r, n);
    TightNoChange(m, n);
    CountMultiples(m, n, SEC);
    assert NoChange(TightSteps(m, n)) && InSecond(r, TightSteps(m, n), 0) == n;
  }

  lemma DivisorKeeps(r: Rate)
    requires 0 < r <= SEC && SEC % r == 0
    ensures Promised(r)
  {
    SecondHolds(r);
    forall steps, from | NoChange(steps)
      ensures InSecond(r, steps, from) <= r
    {
      ConstantWithin(r, steps);
      RateBound(r, steps, r, from);
    }
  }

  lemma OthersBreak(r: Rate) returns (steps: seq<Step>)
    requires 0 < r && SEC % r != 0
    ensures NoChange(steps) && InSecond(r, steps, 0) > r
  {
    if r > SEC {
      steps := Unthrottled(r, r + 1);
    } else {
      SecondHolds(r);
      BoundReached(r);
      steps :| NoChange(steps) && InSecond(r, steps, 0) == r + Excess(r);
    }
  }

  /** The promise of a rate is kept if and only if the rate divides the number of nanoseconds in a second. */
  lemma PromiseKept(r: Rate)
    requires r > 0
    ensures Promised(r) <==> SEC % r == 0
  {
    if SEC % r == 0 {
      DivisorKeeps(r);
    } else {
      var steps := OthersBreak(r);
    }
  }
}

/** The reader's one buffer and the packets it queues. */
module ReadBuffer {
  import opened Bytes

  /** What a read into a buffer of the given size keeps of a datagram: as much of its beginning as fits. */
  function Truncated(d: Bytes, size: nat): Bytes {
    if |d| <= size then d else d[..size]
  }

  function AllTruncated(ds: seq<Bytes>, size: nat): seq<Bytes> {
    seq(|ds|, i requires 0 <= i < |ds| => Truncated(ds[i], size))
  }

  class Reader {
    const rbuff: array<byte>
    var recv: seq<array<byte>>

    ghost predicate Valid()
      reads this
    {
      rbuff !in recv
    }

    /** The queued packets as they are now. */
    ghost function Queued(): seq<Bytes>
      reads this, recv
    {
      seq(|recv|, i requires 0 <= i < |recv| reads this, recv => recv[i][..])
    }

    constructor (size: nat)
      ensures Valid() && Queued() == [] && rbuff.Length == size && fresh(rbuff)
    {
      rbuff := new byte[size];
      recv := [];
    }

    /** One read: the datagram overwrites the buffer, and a copy of what was read is queued. Every queued packet keeps
      its bytes. */
    method ReadOne(d: Bytes)
      requires Valid()
      modifies this, rbuff
      ensures Valid() && Queued() == old(Queued()) + [Truncated(d, rbuff.Length)]
      ensures var q := Queued()[|Queued()| - 1]; q <= d && (|q| == |d| || |q| == rbuff.Length < |d|)
      ensures fresh(set a | a in recv && a !in old(recv))
    {
      var n := if |d| <= rbuff.Length then |d| else rbuff.Length;
      forall i | 0 <= i < n {
        rbuff[i] := d[i];
      }
      var data := new byte[n];
      forall i | 0 <= i < n {
        data[i] := rbuff[i];
      }
      assert data[..] == Truncated(d, rbuff.Length);
      recv := recv + [data];
      forall i | 0 <= i < |old(recv)|
        ensures Queued()[i] == old(Queued())[i]
      {
        assert recv[i] == old(recv)[i] && old(recv)[i] in old(recv);
      }
      assert Queued()[|old(recv)|] == data[..];
    }

    /** The reading loop over any number of datagrams: they are queued in order, each with the bytes it was read with.
      */
    method ReadAll(ds: seq<Bytes>)
      requires Valid()
      modifies this, rbuff
      ensures Valid() && Queued() == old(Queued()) + AllTruncated(ds, rbuff.Length)
    {
      for i := 0 to |ds|
        invariant Valid() && Queued() == old(Queued()) + AllTruncated(ds[..i], rbuff.Length)
        invariant fresh(set a | a in recv && a !in old(recv))
      {
        ReadOne(ds[i]);
        assert AllTruncated(ds[..i + 1], rbuff.Length) ==
               AllTruncated(ds[..i], rbuff.Length) + [Truncated(ds[i], rbuff.Length)];
      }
      assert ds[..|ds|] == ds;
    }

    /** Packets are handed out in the order in which they arrived. */
    method ReadFrom() returns (d: Bytes)
      requires Valid() && recv != []
      modifies this
      ensures Valid() && d == old(Queued())[0] && Queued() == old(Queued())[1..]
    {
      d := recv[0][..];
      recv := recv[1..];
    }
  }
}
