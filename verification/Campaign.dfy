/** The load-test campaign: the call loop of `run_campaign` in crates/loadtest/src/runner.rs.
    Times are seconds since the campaign started. */
module Campaign {
  import opened Text

  /** `totalCalls` of 0 and a `rate` of 0.0 mean no limit. */
  datatype Config = Config(
    concurrency: nat, totalCalls: nat, rate: real, rampUpMs: nat, soakSecs: nat)

  /** What the configuration loader guarantees. */
  predicate Validated(c: Config) {
    c.concurrency > 0 && (c.totalCalls > 0 || c.soakSecs > 0) && c.rate >= 0.0
  }

  datatype CallResult = CallResult(index: nat, ok: bool)

  /** When call `i` may start at the earliest. */
  function RampDelay(c: Config, i: nat): real
    requires c.concurrency > 0
  {
    if c.rampUpMs > 0 && i < c.concurrency then (i * c.rampUpMs / c.concurrency) as real / 1000.0 else 0.0
  }

  function RateDelay(c: Config, i: nat): real
    requires c.rate >= 0.0
  {
    if c.rate > 0.0 then i as real / c.rate else 0.0
  }

  // ----- time -----

  /** A clock that never runs backwards and passes `horizon` within `patience` readings. It
      counts how often it is read and slept on. */
  class Clock {
    var now: real
    var patience: nat
    var readings: nat
    var sleeps: nat
    const horizon: real

    constructor (horizon: real, patience: nat)
      ensures now == 0.0 && this.horizon == horizon && this.patience == patience && readings == sleeps == 0
    {
      now, this.horizon, this.patience, readings, sleeps := 0.0, horizon, patience, 0, 0;
    }

    /** Time passes: by any amount, and at the end of its patience past the horizon. */
    method Read()
      modifies this`now, this`patience, this`readings
      ensures now >= old(now) && readings == old(readings) + 1
      ensures patience == if old(patience) == 0 then 0 else old(patience) - 1
      ensures old(patience) == 0 ==> now >= horizon
    {
      var t: real := *;
      if t >= now { now := t; }
      if patience == 0 {
        if now < horizon { now := horizon; }
      } else {
        patience := patience - 1;
      }
      readings := readings + 1;
    }

    method SleepUntil(t: real)
      modifies this`now, this`sleeps
      ensures now >= t && now >= old(now) && sleeps == old(sleeps) + 1
    {
      var late: real := *;
      if t > now { now := t; }
      if late > now { now := late; }
      sleeps := sleeps + 1;
    }
  }

  // ----- the loop -----

  /** How the task of a call ends. */
  datatype Outcome = Completed(ok: bool) | Panicked

  /** How the task of call `i` ends, whenever that is. */
  function OutcomeOf(outcomes: nat -> Outcome, i: nat): Outcome { outcomes(i) }

  datatype Pass = Spawned | Collected(result: CallResult) | Finished | Failed(index: nat)

  ghost function Indices(rs: seq<CallResult>): set<nat> {
    if rs == [] then {} else Indices(rs[..|rs| - 1]) + {rs[|rs| - 1].index}
  }

  ghost predicate Distinct(rs: seq<CallResult>) {
    rs != [] ==> var n := |rs| - 1; Distinct(rs[..n]) && rs[n].index !in Indices(rs[..n])
  }

  ghost function Below(n: nat): set<nat> {
    if n == 0 then {} else Below(n - 1) + {n - 1}
  }

  lemma IndicesSnoc(rs: seq<CallResult>, r: CallResult)
    ensures Indices(rs + [r]) == Indices(rs) + {r.index}
    ensures Distinct(rs + [r]) <==> Distinct(rs) && r.index !in Indices(rs)
  {
    assert (rs + [r])[..|rs|] == rs;
  }

  lemma {:induction false} BelowMembers(n: nat, k: nat)
    ensures k in Below(n) <==> k < n
    ensures |Below(n)| == n
  {
    if n > 0 {
      BelowMembers(n - 1, k);
      BelowMembers(n - 1, n - 1);
    }
  }

  lemma {:induction false} IndexMembers(rs: seq<CallResult>, i: nat)
    ensures i in Indices(rs) <==> exists k :: 0 <= k < |rs| && rs[k].index == i
    ensures Distinct(rs) ==> |Indices(rs)| == |rs|
  {
    if rs != [] {
      var n := |rs| - 1;
      IndexMembers(rs[..n], i);
      assert rs[n].index == i || (forall k :: 0 <= k < n ==> rs[k] == rs[..n][k]);
    }
  }

  /** Every one of the first `n` calls is pending or collected, once. */
  ghost predicate Partition(pending: set<nat>, collected: seq<CallResult>, n: nat) {
    && pending !! Indices(collected)
    && pending + Indices(collected) == Below(n)
    && Distinct(collected)
  }

  /** The loop's variables. `starts` is when each call was started. */
  datatype Pool = Pool(pending: set<nat>, callIndex: nat, rawResults: seq<CallResult>, starts: seq<real>)

  const EMPTY := Pool({}, 0, [], [])

  predicate CanSpawn(c: Config, p: Pool, now: real) {
    && (c.soakSecs == 0 || now < c.soakSecs as real)
    && (c.totalCalls == 0 || p.callIndex < c.totalCalls)
  }

  function SpawnNext(p: Pool, now: real): Pool {
    Pool(p.pending + {p.callIndex}, p.callIndex + 1, p.rawResults, p.starts + [now])
  }

  function CollectOne(p: Pool, r: CallResult): Pool {
    p.(pending := p.pending - {r.index}, rawResults := p.rawResults + [r])
  }

  /** The pool is bounded, and no call is lost or counted twice. */
  ghost predicate Bounded(c: Config, p: Pool) {
    && |p.pending| <= c.concurrency
    && Partition(p.pending, p.rawResults, p.callIndex)
    && |p.starts| == p.callIndex
    && (c.totalCalls > 0 ==> p.callIndex <= c.totalCalls)
  }

  lemma SpawnKeepsBound(c: Config, p: Pool, at: real, now: real)
    requires Bounded(c, p) && |p.pending| < c.concurrency && CanSpawn(c, p, at)
    ensures Bounded(c, SpawnNext(p, now))
    ensures |SpawnNext(p, now).pending| == |p.pending| + 1
  {
    AddCall(p.pending, Indices(p.rawResults), p.callIndex);
  }

  lemma AddCall(pending: set<nat>, collected: set<nat>, n: nat)
    requires pending !! collected && pending + collected == Below(n)
    ensures pending + {n} !! collected && (pending + {n}) + collected == Below(n + 1)
    ensures |pending + {n}| == |pending| + 1
  {
    BelowMembers(n, n);
    assert n !in pending + collected;
    assert (pending + {n}) + collected == (pending + collected) + {n};
  }

  lemma CollectKeepsBound(c: Config, p: Pool, r: CallResult)
    requires Bounded(c, p) && r.index in p.pending
    ensures Bounded(c, CollectOne(p, r)) && |CollectOne(p, r).pending| == |p.pending| - 1
  {
    IndicesSnoc(p.rawResults, r);
    var q, i := Indices(p.rawResults), r.index;
    assert (p.pending - {i}) + (q + {i}) == p.pending + q;
  }

  // ----- one pass -----

  /** A pass of the loop: the variables before it, when it was decided on, what it was, when it
      was over, and how often it slept. */
  datatype Moment = Moment(before: Pool, at: real, pass: Pass, now: real, sleeps: nat)

  function After(m: Moment): Pool {
    match m.pass
    case Spawned => SpawnNext(m.before, m.now)
    case Collected(r) => CollectOne(m.before, r)
    case _ => m.before
  }

  /** A call may be made and there is a slot for it. */
  predicate Wants(c: Config, p: Pool, at: real) {
    CanSpawn(c, p, at) && |p.pending| < c.concurrency
  }

  /** The loop sleeps at most once for each delay that is still outstanding. */
  function MaySleep(at: real, ramp: real, rate: real, spawned: bool): nat {
    (if at < ramp then 1 else 0) + (if spawned && at < rate then 1 else 0)
  }

  /** Why the pass is what it is: a call is made if one is wanted, and then after its delays; a
      result is awaited if none is wanted, or if the rate limit holds it back; the loop ends
      when nothing is wanted and nothing is pending, or at a call that panicked. */
  predicate Justified(c: Config, outcomes: nat -> Outcome, ramp: real, rate: real, m: Moment) {
    && m.at <= m.now
    && m.sleeps <= (if Wants(c, m.before, m.at) then MaySleep(m.at, ramp, rate, m.pass.Spawned?) else 0)
    && (Wants(c, m.before, m.at) && !m.pass.Spawned? ==> m.now < rate)
    && match m.pass
       case Spawned => Wants(c, m.before, m.at) && m.now >= ramp && m.now >= rate
       case Collected(r) => r.index in m.before.pending && OutcomeOf(outcomes, r.index) == Completed(r.ok)
       case Finished => !Wants(c, m.before, m.at) && m.before.pending == {}
       case Failed(i) => i in m.before.pending && OutcomeOf(outcomes, i).Panicked?
  }

  /** With a call count, every pass that goes on uses up some of this. */
  function Remaining(c: Config, p: Pool): int {
    2 * (c.totalCalls - p.callIndex) + |p.pending|
  }

  class CampaignLoop {
    const config: Config
    const outcomes: nat -> Outcome
    var pending: set<nat>
    var callIndex: nat
    var rawResults: seq<CallResult>
    var starts: seq<real>

    ghost function Abs(): Pool
      reads this
    {
      Pool(pending, callIndex, rawResults, starts)
    }

    constructor (config: Config, outcomes: nat -> Outcome)
      ensures Abs() == EMPTY && this.config == config && this.outcomes == outcomes
    {
      this.config, this.outcomes := config, outcomes;
      pending, callIndex, rawResults, starts := {}, 0, [], [];
    }

    /** One pass of the loop, for a call that may start at `rampDelay` and `expected` at the
        earliest; `at` is when it decided what to do. */
    method Iterate(clock: Clock, rampDelay: real, expected: real) returns (pass: Pass, at: real)
      modifies this, clock
      ensures old(clock.now) <= at && clock.readings == old(clock.readings) + 1 && clock.sleeps >= old(clock.sleeps)
      ensures clock.patience == if old(clock.patience) == 0 then 0 else old(clock.patience) - 1
      ensures pass.Spawned? && old(clock.patience) == 0 ==> clock.horizon <= at
      ensures var m := Moment(old(Abs()), at, pass, clock.now, clock.sleeps - old(clock.sleeps));
        Justified(config, outcomes, rampDelay, expected, m) && Abs() == After(m)
    {
      clock.Read();
      at := clock.now;
      var withinDeadline := config.soakSecs == 0 || at < config.soakSecs as real;
      var withinCount := config.totalCalls == 0 || callIndex < config.totalCalls;
      if withinDeadline && withinCount && |pending| < config.concurrency {
        var finished := WaitForSlot(clock, rampDelay, expected);
        if finished {
          pass := Collect();
        } else {
          Spawn(clock.now);
          pass := Spawned;
        }
      } else if pending == {} {
        pass := Finished;
      } else {
        pass := Collect();
      }
    }

    /** Sleeps until the next call may start, or until a pending call finishes while the rate
        limit holds the next one back. */
    method WaitForSlot(clock: Clock, rampDelay: real, expected: real) returns (finished: bool)
      modifies clock`now, clock`sleeps
      ensures clock.now >= old(clock.now)
      ensures old(clock.sleeps) <= clock.sleeps
        <= old(clock.sleeps) + MaySleep(old(clock.now), rampDelay, expected, !finished)
      ensures if finished then pending != {} && clock.now < expected
        else clock.now >= rampDelay && clock.now >= expected
    {
      finished := false;
      if clock.now < rampDelay {
        clock.SleepUntil(rampDelay);
      }
      if clock.now < expected {
        var someoneFinishes: bool := *;
        if someoneFinishes && pending != {} {
          return true;
        }
        clock.SleepUntil(expected);
      }
    }

    method Spawn(now: real)
      modifies this
      ensures Abs() == SpawnNext(old(Abs()), now)
    {
      pending := pending + {callIndex};
      starts := starts + [now];
      callIndex := callIndex + 1;
    }

    /** Waits for the next call to finish; a task that panicked ends the campaign. */
    method Collect() returns (pass: Pass)
      requires pending != {}
      modifies this`pending, this`rawResults
      ensures pass.Collected? || pass.Failed?
      ensures pass.Collected? ==>
        && pass.result.index in old(pending) && Abs() == CollectOne(old(Abs()), pass.result)
        && OutcomeOf(outcomes, pass.result.index) == Completed(pass.result.ok)
      ensures pass.Failed? ==>
        Abs() == old(Abs()) && pass.index in pending && OutcomeOf(outcomes, pass.index).Panicked?
    {
      var i :| i in pending;
      match OutcomeOf(outcomes, i) {
        case Panicked =>
          return Failed(i);
        case Completed(ok) =>
          rawResults := rawResults + [CallResult(i, ok)];
          pending := pending - {i};
          return Collected(CallResult(i, ok));
      }
    }
  }

  // ----- pacing -----

  /** No call starts before its delays have passed, or before its predecessor. */
  ghost predicate Paced(c: Config, starts: seq<real>)
    requires Validated(c)
  {
    starts != [] ==>
      var n := |starts| - 1;
      && Paced(c, starts[..n])
      && starts[n] >= RampDelay(c, n) && starts[n] >= RateDelay(c, n)
      && (n > 0 ==> starts[n - 1] <= starts[n])
  }

  lemma PacedSnoc(c: Config, starts: seq<real>, now: real)
    requires Validated(c) && Paced(c, starts)
    requires now >= RampDelay(c, |starts|) && now >= RateDelay(c, |starts|)
    requires starts != [] ==> starts[|starts| - 1] <= now
    ensures Paced(c, starts + [now])
  {
    assert (starts + [now])[..|starts|] == starts;
  }

  /** Call `i` never starts before `i` divided by the rate, nor before its ramp-up slot. */
  lemma {:induction false} PacedCall(c: Config, starts: seq<real>, i: nat)
    requires Validated(c) && Paced(c, starts) && i < |starts|
    ensures starts[i] >= RampDelay(c, i) && starts[i] >= RateDelay(c, i)
    ensures i > 0 ==> starts[i - 1] <= starts[i]
  {
    var n := |starts| - 1;
    if i < n {
      PacedCall(c, starts[..n], i);
    }
  }

  /** In plain terms: the first `concurrency` calls are spread evenly over the ramp-up, to the
      millisecond, and call `i` is not made before `i` calls are due at the rate. */
  predicate InTimeAt(c: Config, i: nat, start: real) {
    && (c.rampUpMs > 0 && i < c.concurrency ==> start * 1000.0 >= (i * c.rampUpMs / c.concurrency) as real)
    && (c.rate > 0.0 ==> start * c.rate >= i as real)
  }

  ghost predicate InTime(c: Config, starts: seq<real>) {
    forall i: nat :: i < |starts| ==> InTimeAt(c, i, starts[i])
  }

  lemma PacedIsInTime(c: Config, starts: seq<real>)
    requires Validated(c) && Paced(c, starts)
    ensures InTime(c, starts)
  {
    forall i: nat | i < |starts| ensures InTimeAt(c, i, starts[i]) {
      PacedCall(c, starts, i);
      DelaysKeepTime(c, i, starts[i]);
    }
  }

  lemma DelaysKeepTime(c: Config, i: nat, start: real)
    requires Validated(c) && start >= RampDelay(c, i) && start >= RateDelay(c, i)
    ensures InTimeAt(c, i, start)
  {
    DelaysArePlain(c, i);
    if c.rate > 0.0 { NotLess(RateDelay(c, i), start, c.rate); }
  }

  lemma NotLess(delay: real, t: real, rate: real)
    requires delay <= t && rate > 0.0
    ensures delay * rate <= t * rate
  {
  }

  /** No delay is longer than that. */
  lemma DelaysArePlain(c: Config, i: nat)
    requires Validated(c)
    ensures c.rampUpMs == 0 || i >= c.concurrency ==> RampDelay(c, i) == 0.0
    ensures c.rampUpMs > 0 && i < c.concurrency ==>
      RampDelay(c, i) * 1000.0 == (i * c.rampUpMs / c.concurrency) as real
    ensures c.rate == 0.0 ==> RateDelay(c, i) == 0.0
    ensures c.rate > 0.0 ==> RateDelay(c, i) * c.rate == i as real
  {
    if c.rate > 0.0 { DivTimes(i as real, c.rate); }
  }

  lemma DivTimes(a: real, b: real)
    requires b > 0.0
    ensures a / b * b == a
  {
  }

  /** How many calls have started by time `t`. */
  function StartedBy(starts: seq<real>, t: real): nat {
    if starts == [] then 0
    else StartedBy(starts[..|starts| - 1], t) + if starts[|starts| - 1] <= t then 1 else 0
  }

  /** The rate limit: by time `t`, at most one call more than `t` times the rate. */
  lemma {:induction false} RateLimitHolds(c: Config, starts: seq<real>, t: real)
    requires Validated(c) && Paced(c, starts) && c.rate > 0.0 && t >= 0.0
    ensures StartedBy(starts, t) <= (t * c.rate).Floor + 1
  {
    StartedByBound(c, starts, t);
  }

  lemma {:induction false} StartedByBound(c: Config, starts: seq<real>, t: real)
    requires Validated(c) && Paced(c, starts) && c.rate > 0.0 && t >= 0.0
    ensures StartedBy(starts, t) <= |starts|
    ensures StartedBy(starts, t) <= (t * c.rate).Floor + 1
  {
    if starts == [] {
      MulNonNegative(t, c.rate);
    } else {
      var n := |starts| - 1;
      StartedByBound(c, starts[..n], t);
      if starts[n] <= t {
        LateEnough(c, n, t);
      }
    }
  }

  lemma LateEnough(c: Config, n: nat, t: real)
    requires c.rate > 0.0 && RateDelay(c, n) <= t
    ensures n <= (t * c.rate).Floor
  {
    DivMul(n as real, c.rate, t);
  }

  lemma MulNonNegative(a: real, b: real)
    requires a >= 0.0 && b > 0.0
    ensures a * b >= 0.0
  {
  }

  lemma DivMul(a: real, b: real, t: real)
    requires b > 0.0 && a / b <= t
    ensures a <= t * b
  {
    assert a == (a / b) * b;
  }

  // ----- sorting the results -----

  function Insert(r: CallResult, rs: seq<CallResult>): seq<CallResult> {
    if rs == [] || r.index <= rs[0].index then [r] + rs else [rs[0]] + Insert(r, rs[1..])
  }

  /** A stable sort by call index. */
  function SortByIndex(rs: seq<CallResult>): seq<CallResult> {
    if rs == [] then [] else Insert(rs[0], SortByIndex(rs[1..]))
  }

  ghost predicate Ascending(rs: seq<CallResult>) {
    forall i, j :: 0 <= i < j < |rs| ==> rs[i].index < rs[j].index
  }

  lemma {:induction false} InsertKeeps(r: CallResult, rs: seq<CallResult>)
    requires Ascending(rs) && forall k :: 0 <= k < |rs| ==> rs[k].index != r.index
    ensures var s := Insert(r, rs);
      Ascending(s) && multiset(s) == multiset(rs) + multiset{r} && |s| == |rs| + 1
  {
    if rs == [] || r.index <= rs[0].index {
      ConsAscends(r, rs);
    } else {
      AscendingTail(rs);
      InsertKeeps(r, rs[1..]);
      ConsKeeps(rs[0], rs[1..], Insert(r, rs[1..]), r);
    }
  }

  lemma ConsAscends(r: CallResult, rs: seq<CallResult>)
    requires Ascending(rs) && (rs != [] ==> r.index < rs[0].index)
    ensures var s := [r] + rs; Ascending(s) && multiset(s) == multiset(rs) + multiset{r}
  {
    var s := [r] + rs;
    forall i, j | 0 <= i < j < |s| ensures s[i].index < s[j].index {
      assert s[j] == rs[j - 1];
      if i > 0 { assert s[i] == rs[i - 1]; }
    }
  }

  lemma AscendingTail(rs: seq<CallResult>)
    requires Ascending(rs) && rs != []
    ensures Ascending(rs[1..]) && rs == [rs[0]] + rs[1..]
  {
  }

  lemma ConsKeeps(first: CallResult, rest: seq<CallResult>, tail: seq<CallResult>, r: CallResult)
    requires Ascending([first] + rest) && Ascending(tail) && first.index < r.index
    requires multiset(tail) == multiset(rest) + multiset{r}
    ensures Ascending([first] + tail)
    ensures multiset([first] + tail) == multiset([first] + rest) + multiset{r}
  {
    forall k | 0 <= k < |tail| ensures first.index < tail[k].index {
      assert tail[k] in multiset(tail);
      assert tail[k] == r || tail[k] in multiset(rest);
      if tail[k] != r {
        assert tail[k] in rest;
        var j :| 0 <= j < |rest| && rest[j] == tail[k];
        assert ([first] + rest)[j + 1] == tail[k] && ([first] + rest)[0] == first;
      }
    }
  }

  lemma {:induction false} SortKeeps(rs: seq<CallResult>)
    requires Unequal(rs)
    ensures var s := SortByIndex(rs); Ascending(s) && multiset(s) == multiset(rs) && |s| == |rs|
  {
    if rs != [] {
      var s := SortByIndex(rs[1..]);
      SortKeeps(rs[1..]);
      assert rs == [rs[0]] + rs[1..];
      forall k | 0 <= k < |s| ensures s[k].index != rs[0].index {
        assert s[k] in multiset(s) && s[k] in rs[1..];
      }
      InsertKeeps(rs[0], s);
    }
  }

  ghost predicate Unequal(rs: seq<CallResult>) {
    forall i, j :: 0 <= i < j < |rs| ==> rs[i].index != rs[j].index
  }

  lemma {:induction false} DistinctIsUnequal(rs: seq<CallResult>)
    requires Distinct(rs)
    ensures Unequal(rs)
  {
    if rs != [] {
      var n := |rs| - 1;
      var p := rs[..n];
      DistinctIsUnequal(p);
      IndexMembers(p, rs[n].index);
      forall i, j | 0 <= i < j < |rs| ensures rs[i].index != rs[j].index {
        assert p[i] == rs[i];
        if j < n { assert p[j] == rs[j]; }
      }
    }
  }

  lemma {:induction false} AscendingAtLeast(s: seq<CallResult>, i: nat)
    requires Ascending(s) && i < |s|
    ensures s[i].index >= i
  {
    if i > 0 { AscendingAtLeast(s, i - 1); }
  }

  lemma {:induction false} AscendingAtMost(s: seq<CallResult>, i: nat)
    requires Ascending(s) && i < |s| && s[|s| - 1].index < |s|
    ensures s[i].index <= i
    decreases |s| - i
  {
    if i + 1 < |s| { AscendingAtMost(s, i + 1); }
  }

  /** After the sort, result `i` is the result of call `i`. */
  lemma SortedResultsAreCalls(rs: seq<CallResult>, n: nat)
    requires Distinct(rs) && Indices(rs) == Below(n)
    ensures var s := SortByIndex(rs);
      |s| == n && multiset(s) == multiset(rs) && forall i :: 0 <= i < n ==> s[i].index == i
  {
    var s := SortByIndex(rs);
    DistinctIsUnequal(rs);
    SortKeeps(rs);
    CountsAgree(rs, n);
    if n > 0 {
      SameMembers(rs, s, s[n - 1]);
      IndexIsBelow(rs, n, s[n - 1]);
    }
    forall i | 0 <= i < n ensures s[i].index == i {
      AscendingAtLeast(s, i);
      AscendingAtMost(s, i);
    }
  }

  lemma CountsAgree(rs: seq<CallResult>, n: nat)
    requires Distinct(rs) && Indices(rs) == Below(n)
    ensures |rs| == n
  {
    IndexMembers(rs, 0);
    BelowMembers(n, 0);
  }

  lemma SameMembers(rs: seq<CallResult>, s: seq<CallResult>, r: CallResult)
    requires multiset(s) == multiset(rs) && r in s
    ensures r in rs
  {
    assert r in multiset(s);
  }

  lemma IndexIsBelow(rs: seq<CallResult>, n: nat, r: CallResult)
    requires Indices(rs) == Below(n) && r in rs
    ensures r.index < n
  {
    IndexMembers(rs, r.index);
    BelowMembers(n, r.index);
  }

  // ----- the campaign -----

  /** What holds between two passes. */
  ghost predicate LoopInv(c: Config, p: Pool, now: real) {
    && Validated(c)
    && Bounded(c, p)
    && Paced(c, p.starts)
    && (p.starts != [] ==> p.starts[|p.starts| - 1] <= now)
    && now >= 0.0
  }

  lemma SpawnKeepsInv(c: Config, p: Pool, before: real, at: real, now: real)
    requires LoopInv(c, p, before) && before <= now && |p.pending| < c.concurrency && CanSpawn(c, p, at)
    requires now >= RampDelay(c, p.callIndex) && now >= RateDelay(c, p.callIndex)
    ensures LoopInv(c, SpawnNext(p, now), now)
    ensures c.totalCalls > 0 ==> 0 <= Remaining(c, SpawnNext(p, now)) < Remaining(c, p)
  {
    SpawnKeepsBound(c, p, at, now);
    PacedSnoc(c, p.starts, now);
  }

  lemma CollectKeepsInv(c: Config, p: Pool, before: real, r: CallResult, now: real)
    requires LoopInv(c, p, before) && before <= now && r.index in p.pending
    ensures LoopInv(c, CollectOne(p, r), now)
    ensures c.totalCalls > 0 ==> 0 <= Remaining(c, CollectOne(p, r)) < Remaining(c, p)
    ensures |CollectOne(p, r).pending| < |p.pending|
  {
    CollectKeepsBound(c, p, r);
  }

  /** Every result is that of its call, which did not panic. */
  ghost predicate Truthful(rs: seq<CallResult>, outcomes: nat -> Outcome) {
    rs != [] ==>
      var n := |rs| - 1;
      Truthful(rs[..n], outcomes) && OutcomeOf(outcomes, rs[n].index) == Completed(rs[n].ok)
  }

  lemma TruthfulSnoc(rs: seq<CallResult>, r: CallResult, outcomes: nat -> Outcome)
    requires Truthful(rs, outcomes) && OutcomeOf(outcomes, r.index) == Completed(r.ok)
    ensures Truthful(rs + [r], outcomes)
  {
    assert (rs + [r])[..|rs|] == rs;
  }

  lemma {:induction false} TruthfulMember(rs: seq<CallResult>, r: CallResult, outcomes: nat -> Outcome)
    requires Truthful(rs, outcomes) && r in rs
    ensures OutcomeOf(outcomes, r.index) == Completed(r.ok)
  {
    var n := |rs| - 1;
    assert rs == rs[..n] + [rs[n]];
    if r != rs[n] { TruthfulMember(rs[..n], r, outcomes); }
  }

  /** One result for each of `n` calls: that of call `i` in place `i`. */
  ghost predicate ResultsOf(rs: seq<CallResult>, n: nat, outcomes: nat -> Outcome) {
    |rs| == n && forall i: nat :: i < n ==> rs[i].index == i && OutcomeOf(outcomes, i) == Completed(rs[i].ok)
  }

  /** The campaign has made all its calls, or its soak time is over. */
  predicate Over(c: Config, n: nat, now: real) {
    (c.totalCalls > 0 && n == c.totalCalls) || (c.soakSecs > 0 && now >= c.soakSecs as real)
  }

  lemma FinishedIsComplete(c: Config, p: Pool, now: real, outcomes: nat -> Outcome)
    requires LoopInv(c, p, now) && Truthful(p.rawResults, outcomes)
    requires p.pending == {} && !CanSpawn(c, p, now)
    ensures ResultsOf(SortByIndex(p.rawResults), |p.starts|, outcomes) && Over(c, |p.starts|, now)
  {
    var s := SortByIndex(p.rawResults);
    SortedResultsAreCalls(p.rawResults, p.callIndex);
    forall i: nat | i < |s| ensures OutcomeOf(outcomes, i) == Completed(s[i].ok) {
      SameMembers(p.rawResults, s, s[i]);
      TruthfulMember(p.rawResults, s[i], outcomes);
    }
  }

  ghost predicate NonePanicked(n: nat, outcomes: nat -> Outcome) {
    forall i: nat :: i < n ==> !OutcomeOf(outcomes, i).Panicked?
  }

  lemma PendingHasStarted(c: Config, p: Pool, i: nat)
    requires Bounded(c, p) && i in p.pending
    ensures i < |p.starts|
  {
    BelowMembers(p.callIndex, i);
  }

  /** What holds of the loop's variables between two passes. */
  ghost predicate Running(c: Config, p: Pool, outcomes: nat -> Outcome, now: real) {
    LoopInv(c, p, now) && Truthful(p.rawResults, outcomes)
  }

  lemma SpawnedRuns(c: Config, p: Pool, outcomes: nat -> Outcome, before: real, at: real, now: real)
    requires Running(c, p, outcomes, before) && before <= now && |p.pending| < c.concurrency && CanSpawn(c, p, at)
    requires now >= RampDelay(c, p.callIndex) && now >= RateDelay(c, p.callIndex)
    ensures Running(c, SpawnNext(p, now), outcomes, now)
  {
    SpawnKeepsInv(c, p, before, at, now);
  }

  lemma CollectedRuns(c: Config, p: Pool, outcomes: nat -> Outcome, before: real, r: CallResult, now: real)
    requires Running(c, p, outcomes, before) && before <= now && r.index in p.pending
    requires OutcomeOf(outcomes, r.index) == Completed(r.ok)
    ensures Running(c, CollectOne(p, r), outcomes, now)
  {
    CollectKeepsInv(c, p, before, r, now);
    TruthfulSnoc(p.rawResults, r, outcomes);
  }

  predicate GoesOn(pass: Pass) { pass.Spawned? || pass.Collected? }

  /** A pass from `p`, with the delays of the next call. */
  predicate PassFrom(c: Config, outcomes: nat -> Outcome, p: Pool, m: Moment)
    requires Validated(c)
  {
    m.before == p && m.at >= 0.0 && Justified(c, outcomes, RampDelay(c, p.callIndex), RateDelay(c, p.callIndex), m)
  }

  lemma PassRuns(c: Config, outcomes: nat -> Outcome, p: Pool, before: real, m: Moment)
    requires Running(c, p, outcomes, before) && before <= m.at && PassFrom(c, outcomes, p, m)
    ensures GoesOn(m.pass) ==>
      && Running(c, After(m), outcomes, m.now)
      && (c.totalCalls > 0 ==> 0 <= Remaining(c, After(m)) < Remaining(c, p))
      && (m.pass.Collected? ==> |After(m).pending| < |p.pending|)
    ensures !GoesOn(m.pass) ==> LoopInv(c, p, m.now)
    ensures m.pass.Finished? ==> !CanSpawn(c, p, m.now)
  {
    match m.pass {
      case Spawned =>
        SpawnedRuns(c, p, outcomes, before, m.at, m.now);
        SpawnKeepsInv(c, p, before, m.at, m.now);
      case Collected(r) =>
        CollectedRuns(c, p, outcomes, before, r, m.now);
        CollectKeepsInv(c, p, before, r, m.now);
      case _ =>
    }
  }

  /** One pass and what it leaves to do. */
  method Advance(c: Config, campaign: CampaignLoop, clock: Clock) returns (ghost m: Moment, pass: Pass)
    requires campaign.config == c && Running(c, campaign.Abs(), campaign.outcomes, clock.now)
    requires c.totalCalls == 0 ==> c.soakSecs as real <= clock.horizon
    modifies campaign, clock
    ensures PassFrom(c, campaign.outcomes, old(campaign.Abs()), m) && campaign.Abs() == After(m) && m.pass == pass
    ensures old(clock.now) <= m.at && m.now == clock.now
    ensures clock.readings == old(clock.readings) + 1 && clock.sleeps == old(clock.sleeps) + m.sleeps
    ensures GoesOn(pass) ==>
      && Running(c, campaign.Abs(), campaign.outcomes, clock.now)
      && (c.totalCalls > 0 ==> 0 <= Remaining(c, campaign.Abs()) < old(Remaining(c, campaign.Abs())))
      && (c.totalCalls == 0 ==>
            (clock.patience < old(clock.patience)
             || (clock.patience == old(clock.patience) && |campaign.pending| < old(|campaign.pending|))))
    ensures !GoesOn(pass) ==> LoopInv(c, campaign.Abs(), clock.now)
    ensures pass.Finished? ==> !CanSpawn(c, campaign.Abs(), clock.now)
  {
    ghost var p, before, sleeps := campaign.Abs(), clock.now, clock.sleeps;
    var at;
    pass, at := campaign.Iterate(clock, RampDelay(c, campaign.callIndex), RateDelay(c, campaign.callIndex));
    m := Moment(p, at, pass, clock.now, clock.sleeps - sleeps);
    PassRuns(c, campaign.outcomes, p, before, m);
  }

  // ----- all passes -----

  /** The passes of a campaign follow each other, each is justified, and the pool is bounded
      before each of them; only the last one ends the loop. */
  ghost predicate Traced(c: Config, outcomes: nat -> Outcome, trace: seq<Moment>)
    requires Validated(c)
  {
    trace != [] ==>
      var n := |trace| - 1;
      && Traced(c, outcomes, trace[..n])
      && PassFrom(c, outcomes, PoolAfter(trace[..n]), trace[n])
      && Bounded(c, trace[n].before)
      && (n > 0 ==> GoesOn(trace[n - 1].pass) && trace[n - 1].now <= trace[n].at)
  }

  function PoolAfter(trace: seq<Moment>): Pool {
    if trace == [] then EMPTY else After(trace[|trace| - 1])
  }

  function TotalSleeps(trace: seq<Moment>): nat {
    if trace == [] then 0 else TotalSleeps(trace[..|trace| - 1]) + trace[|trace| - 1].sleeps
  }

  lemma TraceSnoc(c: Config, outcomes: nat -> Outcome, trace: seq<Moment>, m: Moment)
    requires Validated(c) && Traced(c, outcomes, trace) && PassFrom(c, outcomes, PoolAfter(trace), m)
    requires Bounded(c, m.before)
    requires trace != [] ==> GoesOn(trace[|trace| - 1].pass) && trace[|trace| - 1].now <= m.at
    ensures Traced(c, outcomes, trace + [m]) && PoolAfter(trace + [m]) == After(m)
    ensures TotalSleeps(trace + [m]) == TotalSleeps(trace) + m.sleeps
  {
    assert (trace + [m])[..|trace|] == trace;
  }

  /** Before pass `k` at most `concurrency` calls are pending, and the pass has its reason. */
  ghost predicate JustifiedAt(c: Config, outcomes: nat -> Outcome, trace: seq<Moment>, k: nat)
    requires Validated(c) && k < |trace|
  {
    && |trace[k].before.pending| <= c.concurrency
    && PassFrom(c, outcomes, PoolAfter(trace[..k]), trace[k])
    && (k > 0 ==> GoesOn(trace[k - 1].pass))
  }

  lemma LastIsJustified(c: Config, outcomes: nat -> Outcome, trace: seq<Moment>)
    requires Validated(c) && Traced(c, outcomes, trace) && trace != []
    ensures JustifiedAt(c, outcomes, trace, |trace| - 1)
  {
  }

  lemma JustifiedEarlier(c: Config, outcomes: nat -> Outcome, trace: seq<Moment>, n: nat, k: nat)
    requires Validated(c) && k < n <= |trace| && JustifiedAt(c, outcomes, trace[..n], k)
    ensures JustifiedAt(c, outcomes, trace, k)
  {
    assert trace[..n][..k] == trace[..k];
  }

  lemma TracedBefore(c: Config, outcomes: nat -> Outcome, trace: seq<Moment>)
    requires Validated(c) && Traced(c, outcomes, trace) && trace != []
    ensures Traced(c, outcomes, trace[..|trace| - 1])
  {
  }

  lemma {:induction false} TracedPrefix(c: Config, outcomes: nat -> Outcome, trace: seq<Moment>, n: nat, p: seq<Moment>)
    requires Validated(c) && Traced(c, outcomes, trace) && n <= |trace| && p == trace[..n]
    ensures Traced(c, outcomes, p)
  {
    if n == |trace| {
      assert p == trace;
    } else {
      var q := trace[..|trace| - 1];
      TracedBefore(c, outcomes, trace);
      assert p == q[..n];
      TracedPrefix(c, outcomes, q, n, p);
    }
  }

  lemma EveryPassIsJustified(c: Config, outcomes: nat -> Outcome, trace: seq<Moment>, k: nat)
    requires Validated(c) && Traced(c, outcomes, trace) && k < |trace|
    ensures JustifiedAt(c, outcomes, trace, k)
  {
    TracedPrefix(c, outcomes, trace, k + 1, trace[..k + 1]);
    LastIsJustified(c, outcomes, trace[..k + 1]);
    JustifiedEarlier(c, outcomes, trace, k + 1, k);
  }

  /** Why no further call may be made at `at`: the soak time is over, or all are made. */
  predicate NoMore(c: Config, p: Pool, at: real) {
    (c.soakSecs > 0 && at >= c.soakSecs as real) || (c.totalCalls > 0 && p.callIndex >= c.totalCalls)
  }

  /** The ramp-up slot of call `i` lies ahead of `t`; only the first `concurrency` calls have
      one. */
  predicate BeforeSlot(c: Config, i: nat, t: real) {
    c.rampUpMs > 0 && i < c.concurrency && t * 1000.0 < (i * c.rampUpMs / c.concurrency) as real
  }

  /** Call `i` is not due yet at the rate. */
  predicate BeforeRate(c: Config, i: nat, t: real) { c.rate > 0.0 && t * c.rate < i as real }

  /** A pass in plain terms: it awaits a result only when the pool is full, when no call may be
      made any more, or when the rate holds the next call back; it sleeps only when a call may
      be made, and then at most once for each of its slots that lies ahead. */
  lemma PassInPlainTerms(c: Config, outcomes: nat -> Outcome, m: Moment)
    requires Validated(c) && PassFrom(c, outcomes, m.before, m)
    ensures var i, full := m.before.callIndex, |m.before.pending| >= c.concurrency;
      && (m.pass.Collected? ==> full || NoMore(c, m.before, m.at) || BeforeRate(c, i, m.now))
      && (m.pass.Spawned? ==> !full && !NoMore(c, m.before, m.at))
      && (m.pass.Finished? ==> NoMore(c, m.before, m.at) && m.before.pending == {})
      && (m.sleeps > 0 ==> !full && !NoMore(c, m.before, m.at))
      && m.sleeps <= (if BeforeSlot(c, i, m.at) then 1 else 0)
                     + (if m.pass.Spawned? && BeforeRate(c, i, m.at) then 1 else 0)
  {
    DelaysAhead(c, m.before.callIndex, m.at);
    DelaysAhead(c, m.before.callIndex, m.now);
  }

  lemma DelaysAhead(c: Config, i: nat, t: real)
    requires Validated(c) && t >= 0.0
    ensures t < RampDelay(c, i) ==> BeforeSlot(c, i, t)
    ensures t < RateDelay(c, i) ==> BeforeRate(c, i, t)
  {
    DelaysArePlain(c, i);
    if c.rate > 0.0 { LessThanDelay(t, RateDelay(c, i), c.rate); }
  }

  lemma LessThanDelay(t: real, delay: real, rate: real)
    requires rate > 0.0
    ensures t < delay ==> t * rate < delay * rate
  {
  }

  /** The passes of a campaign that is over; the last one is why. */
  ghost predicate Whole(c: Config, outcomes: nat -> Outcome, trace: seq<Moment>, now: real)
    requires Validated(c)
  {
    && Traced(c, outcomes, trace) && trace != []
    && var last := trace[|trace| - 1];
    !GoesOn(last.pass) && last.now == now
  }

  /** The passes of a campaign that goes on. */
  ghost predicate Partly(c: Config, outcomes: nat -> Outcome, trace: seq<Moment>, p: Pool, now: real)
    requires Validated(c)
  {
    && Traced(c, outcomes, trace) && p == PoolAfter(trace)
    && (trace != [] ==> GoesOn(trace[|trace| - 1].pass) && trace[|trace| - 1].now == now)
  }

  lemma TraceGrows(c: Config, outcomes: nat -> Outcome, trace: seq<Moment>, p: Pool, before: real, m: Moment)
    requires Validated(c) && Partly(c, outcomes, trace, p, before) && Bounded(c, p)
    requires PassFrom(c, outcomes, p, m) && before <= m.at
    ensures var t := trace + [m];
      && TotalSleeps(t) == TotalSleeps(trace) + m.sleeps && PoolAfter(t) == After(m)
      && (if GoesOn(m.pass) then Partly(c, outcomes, t, After(m), m.now) else Whole(c, outcomes, t, m.now))
  {
    TraceSnoc(c, outcomes, trace, m);
  }

  /** The call loop: passes until one ends it. */
  method RunLoop(c: Config, campaign: CampaignLoop, clock: Clock) returns (last: Pass, ghost trace: seq<Moment>)
    requires campaign.config == c && Running(c, campaign.Abs(), campaign.outcomes, clock.now)
    requires campaign.Abs() == EMPTY
    requires c.totalCalls == 0 ==> c.soakSecs as real <= clock.horizon
    modifies campaign, clock
    ensures Running(c, campaign.Abs(), campaign.outcomes, clock.now)
    ensures Whole(c, campaign.outcomes, trace, clock.now) && campaign.Abs() == PoolAfter(trace)
    ensures last == trace[|trace| - 1].pass
    ensures last.Finished? ==> !CanSpawn(c, campaign.Abs(), clock.now)
    ensures clock.readings == old(clock.readings) + |trace|
    ensures clock.sleeps == old(clock.sleeps) + TotalSleeps(trace)
  {
    trace := [];
    while true
      invariant Running(c, campaign.Abs(), campaign.outcomes, clock.now)
      invariant Partly(c, campaign.outcomes, trace, campaign.Abs(), clock.now)
      invariant clock.readings == old(clock.readings) + |trace|
      invariant clock.sleeps == old(clock.sleeps) + TotalSleeps(trace)
      decreases if c.totalCalls > 0 then Remaining(c, campaign.Abs()) else clock.patience, |campaign.pending|
    {
      ghost var p, before := campaign.Abs(), clock.now;
      ghost var m;
      m, last := Advance(c, campaign, clock);
      TraceGrows(c, campaign.outcomes, trace, p, before, m);
      trace := trace + [m];
      if !GoesOn(last) { return; }
    }
  }

  lemma LastOfTrace(c: Config, outcomes: nat -> Outcome, trace: seq<Moment>, now: real)
    requires Validated(c) && Whole(c, outcomes, trace, now)
    ensures var last := trace[|trace| - 1].pass; var p := PoolAfter(trace);
      && ((last.Finished? && p.pending == {})
          || (last.Failed? && last.index in p.pending && OutcomeOf(outcomes, last.index).Panicked?))
  {
  }

  lemma LastDecides(c: Config, outcomes: nat -> Outcome, p: Pool, now: real, last: Pass)
    requires Running(c, p, outcomes, now)
    requires last.Finished? ==> p.pending == {} && !CanSpawn(c, p, now)
    requires last.Failed? ==> last.index in p.pending && OutcomeOf(outcomes, last.index).Panicked?
    ensures Paced(c, p.starts) && (c.totalCalls > 0 ==> |p.starts| <= c.totalCalls)
    ensures last.Finished? ==>
      && ResultsOf(SortByIndex(p.rawResults), |p.starts|, outcomes) && Over(c, |p.starts|, now)
      && NonePanicked(|p.starts|, outcomes)
    ensures last.Failed? ==> !NonePanicked(|p.starts|, outcomes)
  {
    if last.Finished? {
      FinishedIsComplete(c, p, now, outcomes);
    } else if last.Failed? {
      PendingHasStarted(c, p, last.index);
    }
  }

  /** The whole campaign. It ends with all its calls made or its soak time over, unless a call
      it started panics. `outcomes` says how the task of each call ends; `trace` is what the
      passes of the loop were, and accounts for every reading of the clock and every sleep. */
  method RunCampaign(c: Config, outcomes: nat -> Outcome, clock: Clock)
    returns (results: Option<seq<CallResult>>, starts: seq<real>, ghost trace: seq<Moment>)
    requires Validated(c) && clock.now == 0.0
    requires c.totalCalls == 0 ==> c.soakSecs as real <= clock.horizon
    modifies clock
    ensures Paced(c, starts) && InTime(c, starts)
    ensures c.totalCalls > 0 ==> |starts| <= c.totalCalls
    ensures results.Some? <==> NonePanicked(|starts|, outcomes)
    ensures results.Some? ==> ResultsOf(results.value, |starts|, outcomes) && Over(c, |starts|, clock.now)
    ensures Whole(c, outcomes, trace, clock.now) && starts == PoolAfter(trace).starts
    ensures results.Some? <==> trace[|trace| - 1].pass.Finished?
    ensures clock.readings == old(clock.readings) + |trace|
    ensures clock.sleeps == old(clock.sleeps) + TotalSleeps(trace)
  {
    var campaign := new CampaignLoop(c, outcomes);
    var last;
    last, trace := RunLoop(c, campaign, clock);
    LastOfTrace(c, outcomes, trace, clock.now);
    LastDecides(c, outcomes, campaign.Abs(), clock.now, last);
    starts := campaign.starts;
    PacedIsInTime(c, starts);
    results := if last.Finished? then Some(SortByIndex(campaign.rawResults)) else None;
  }
}
