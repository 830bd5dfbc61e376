/**
 The fixed-window limiter of internal/store/redisstore/redis.go: one counter per key that Redis drops when its
 expiry passes, changed only by one script. Bounds are over the whole history of calls on a key.
 */
module Limiter {
  import opened Basics

  /** A Redis counter: its expiry is set by PEXPIRE, not by INCRBY. */
  datatype Counter = Counter(value: int, expires: Option<Time>)

  /** One call on a key; window is in milliseconds. */
  datatype Call = Call(at: Time, limit: int, n: int, window: int)

  /** What GET sees: a counter whose expiry has passed is gone. */
  function Live(c: Option<Counter>, at: Time): Option<Counter> {
    if c.Some? && c.value.expires.Some? && at >= c.value.expires.value then None else c
  }

  function Value(c: Option<Counter>): int {
    if c.Some? then c.value.value else 0
  }

  function Allowed(c: Option<Counter>, call: Call): bool {
    Value(Live(c, call.at)) + call.n <= call.limit
  }

  /** INCRBY keeps an existing expiry; PEXPIRE with a time that is not in the future deletes the key. */
  function Incremented(c: Option<Counter>, call: Call): Option<Counter> {
    var live := Live(c, call.at);
    var next := Value(live) + call.n;
    if next != call.n then Some(Counter(next, if live.Some? then live.value.expires else None))
    else if call.window <= 0 then None
    else Some(Counter(next, Some(call.at + call.window)))
  }

  function Script(c: Option<Counter>, call: Call): Option<Counter> {
    if Allowed(c, call) then Incremented(c, call) else Live(c, call.at)
  }

  // ----- histories of one key -----

  /** One admission: when, how many units, and in which lifetime of the key. */
  datatype Grant = Grant(at: Time, n: int, life: nat)

  datatype Trace = Trace(counter: Option<Counter>, grants: seq<Grant>, starts: seq<Time>)

  /** The calls the code makes on one key: a fixed configuration, at least one unit, a monotone clock. */
  predicate Uniform(calls: seq<Call>, limit: int, window: nat) {
    && (forall i :: 0 <= i < |calls| ==> calls[i].limit == limit && calls[i].window == window && calls[i].n >= 1)
    && (forall i, j :: 0 <= i < j < |calls| ==> calls[i].at <= calls[j].at)
  }

  function Step(t: Trace, call: Call): Trace {
    if !Allowed(t.counter, call) then t.(counter := Script(t.counter, call))
    else
      var starts := if Live(t.counter, call.at).None? then t.starts + [call.at] else t.starts;
      Trace(Script(t.counter, call), t.grants + [Grant(call.at, call.n, if starts == [] then 0 else |starts| - 1)], starts)
  }

  function Run(calls: seq<Call>): Trace {
    if calls == [] then Trace(None, [], []) else Step(Run(calls[..|calls| - 1]), calls[|calls| - 1])
  }

  function UnitsOf(grants: seq<Grant>, life: nat): int {
    if grants == [] then 0
    else
      var g := grants[|grants| - 1];
      UnitsOf(grants[..|grants| - 1], life) + if g.life == life then g.n else 0
  }

  function UnitsDuring(grants: seq<Grant>, from: Time, to: Time): int {
    if grants == [] then 0
    else
      var g := grants[|grants| - 1];
      UnitsDuring(grants[..|grants| - 1], from, to) + if from <= g.at < to then g.n else 0
  }

  /** Units admitted in one lifetime before an instant. */
  function UnitsBefore(grants: seq<Grant>, life: nat, to: Time): int {
    if grants == [] then 0
    else
      var g := grants[|grants| - 1];
      UnitsBefore(grants[..|grants| - 1], life, to) + if g.life == life && g.at < to then g.n else 0
  }

  function LastCall(calls: seq<Call>): Time {
    if calls == [] then 0 else calls[|calls| - 1].at
  }

  // ----- the invariant -----

  /** A present key expires one window after it was created and holds what its lifetime admitted. */
  ghost predicate CounterOk(t: Trace, limit: int, window: nat) {
    t.counter.Some? ==>
      && t.starts != []
      && t.counter.value == Counter(UnitsOf(t.grants, |t.starts| - 1), Some(t.starts[|t.starts| - 1] + window))
      && 1 <= t.counter.value.value <= limit
  }

  ghost predicate LivesOk(starts: seq<Time>, window: nat, now: Time) {
    && (forall i :: 0 <= i < |starts| ==> starts[i] <= now)
    && (forall i, j :: 0 <= i < j < |starts| ==> starts[i] + window <= starts[j])
  }

  ghost predicate GrantsOk(grants: seq<Grant>, starts: seq<Time>, window: nat) {
    forall i :: 0 <= i < |grants| ==>
      && grants[i].life < |starts| && grants[i].n >= 1
      && starts[grants[i].life] <= grants[i].at < starts[grants[i].life] + window
  }

  /** Every lifetime was opened by an admission at its start. */
  ghost predicate Opened(grants: seq<Grant>, starts: seq<Time>) {
    forall life :: 0 <= life < |starts| ==> OpenedAt(grants, life, starts[life])
  }

  ghost predicate Bounded(grants: seq<Grant>, lives: nat, limit: int) {
    forall life: nat :: if life < lives then UnitsOf(grants, life) <= limit else UnitsOf(grants, life) == 0
  }

  /** A gone key is past the end of its last lifetime. */
  ghost predicate GoneOk(t: Trace, window: nat, now: Time) {
    t.counter.None? && t.starts != [] ==> t.starts[|t.starts| - 1] + window <= now
  }

  ghost predicate Inv(t: Trace, limit: int, window: nat, now: Time) {
    && CounterOk(t, limit, window) && LivesOk(t.starts, window, now) && GrantsOk(t.grants, t.starts, window)
    && Opened(t.grants, t.starts) && Bounded(t.grants, |t.starts|, limit) && GoneOk(t, window, now)
  }

  lemma {:induction false} UnitsAppend(grants: seq<Grant>, g: Grant, life: nat)
    ensures UnitsOf(grants + [g], life) == UnitsOf(grants, life) + if g.life == life then g.n else 0
  {
    assert (grants + [g])[..|grants|] == grants;
  }

  /** A key that is still there at a call is in its lifetime; one that is gone has seen a full window pass. */
  lemma LiveFacts(t: Trace, limit: int, window: nat, call: Call)
    requires CounterOk(t, limit, window) && GoneOk(t, window, call.at)
    ensures Live(t.counter, call.at).Some? ==>
      && t.starts != [] && call.at < t.starts[|t.starts| - 1] + window
      && Value(Live(t.counter, call.at)) == UnitsOf(t.grants, |t.starts| - 1) >= 1
    ensures Live(t.counter, call.at).None? ==>
      Value(Live(t.counter, call.at)) == 0 && (t.starts != [] ==> t.starts[|t.starts| - 1] + window <= call.at)
  {
  }

  lemma AdmitKeepsLives(t: Trace, limit: int, window: nat, now: Time, call: Call)
    requires CounterOk(t, limit, window) && GoneOk(t, window, now) && LivesOk(t.starts, window, now)
    requires now <= call.at && Allowed(t.counter, call)
    ensures LivesOk(Step(t, call).starts, window, call.at)
  {
    LiveFacts(t, limit, window, call);
  }

  lemma GrantsExtend(grants: seq<Grant>, starts: seq<Time>, window: nat, g: Grant, more: seq<Time>)
    requires GrantsOk(grants, starts, window) && starts <= more
    requires GrantsOk([g], more, window)
    ensures GrantsOk(grants + [g], more, window)
  {
    assert [g][0] == g;
  }

  lemma AdmitKeepsGrants(t: Trace, limit: int, window: nat, now: Time, call: Call)
    requires CounterOk(t, limit, window) && GoneOk(t, window, now) && LivesOk(t.starts, window, now)
    requires GrantsOk(t.grants, t.starts, window)
    requires now <= call.at && window >= 1 && call.n >= 1 && Allowed(t.counter, call)
    ensures GrantsOk(Step(t, call).grants, Step(t, call).starts, window)
  {
    LiveFacts(t, limit, window, call);
    var starts := Step(t, call).starts;
    GrantsExtend(t.grants, t.starts, window, Grant(call.at, call.n, |starts| - 1), starts);
  }

  ghost predicate OpenedAt(grants: seq<Grant>, life: nat, start: Time) {
    exists i :: 0 <= i < |grants| && grants[i].life == life && grants[i].at == start
  }

  lemma OpenedStays(grants: seq<Grant>, g: Grant, life: nat, start: Time)
    requires OpenedAt(grants, life, start) || (g.life == life && g.at == start)
    ensures OpenedAt(grants + [g], life, start)
  {
    assert (grants + [g])[|grants|] == g;
    if i :| 0 <= i < |grants| && grants[i].life == life && grants[i].at == start {
      assert (grants + [g])[i] == grants[i];
    }
  }

  lemma AdmitKeepsOpened(t: Trace, call: Call)
    requires Opened(t.grants, t.starts) && Allowed(t.counter, call)
    ensures Opened(Step(t, call).grants, Step(t, call).starts)
  {
    var s := Step(t, call);
    var g := Grant(call.at, call.n, if s.starts == [] then 0 else |s.starts| - 1);
    forall life: nat | life < |s.starts| ensures OpenedAt(s.grants, life, s.starts[life]) {
      OpenedStays(t.grants, g, life, s.starts[life]);
    }
  }

  lemma AdmitKeepsCounts(t: Trace, limit: int, window: nat, now: Time, call: Call)
    requires Inv(t, limit, window, now) && now <= call.at && window >= 1 && call.n >= 1
    requires call.limit == limit && call.window == window && Allowed(t.counter, call)
    ensures CounterOk(Step(t, call), limit, window) && GoneOk(Step(t, call), window, call.at)
    ensures Bounded(Step(t, call).grants, |Step(t, call).starts|, limit)
  {
    LiveFacts(t, limit, window, call);
    var s := Step(t, call);
    var g := Grant(call.at, call.n, |s.starts| - 1);
    assert s.grants == t.grants + [g];
    forall life: nat
      ensures if life < |s.starts| then UnitsOf(s.grants, life) <= limit else UnitsOf(s.grants, life) == 0
    {
      UnitsAppend(t.grants, g, life);
      assert if life < |t.starts| then UnitsOf(t.grants, life) <= limit else UnitsOf(t.grants, life) == 0;
    }
    UnitsAppend(t.grants, g, |s.starts| - 1);
    assert UnitsOf(t.grants, |t.starts|) == 0;
  }

  lemma StepKeepsInv(t: Trace, limit: int, window: nat, now: Time, call: Call)
    requires Inv(t, limit, window, now) && now <= call.at && window >= 1 && call.n >= 1
    requires call.limit == limit && call.window == window
    ensures Inv(Step(t, call), limit, window, call.at)
  {
    if Allowed(t.counter, call) {
      AdmitKeepsLives(t, limit, window, now, call);
      AdmitKeepsGrants(t, limit, window, now, call);
      AdmitKeepsOpened(t, call);
      AdmitKeepsCounts(t, limit, window, now, call);
    } else {
      LiveFacts(t, limit, window, call);
    }
  }

  lemma {:induction false} HistoryKeepsInv(calls: seq<Call>, limit: int, window: nat)
    requires Uniform(calls, limit, window) && window >= 1
    ensures Inv(Run(calls), limit, window, LastCall(calls))
  {
    if calls != [] {
      var before := calls[..|calls| - 1];
      HistoryKeepsInv(before, limit, window);
      StepKeepsInv(Run(before), limit, window, LastCall(before), calls[|calls| - 1]);
    }
  }

  // ----- what callers get -----

  /** A key that is present has an expiry and a value between one and the limit. */
  lemma PresentKeyIsBounded(calls: seq<Call>, limit: int, window: nat)
    requires Uniform(calls, limit, window) && window >= 1
    ensures Run(calls).counter.Some? ==>
      && Run(calls).counter.value.expires.Some?
      && 1 <= Run(calls).counter.value.value <= limit
      && Run(calls).counter.value.expires.value <= LastCall(calls) + window
  {
    HistoryKeepsInv(calls, limit, window);
  }

  /**
   A call is refused exactly when its units do not fit beside those already admitted in the running window, and
   a refusal consumes nothing.
   */
  lemma RefusedIff(calls: seq<Call>, limit: int, window: nat, call: Call)
    requires Uniform(calls + [call], limit, window) && window >= 1
    ensures var t := Run(calls);
      var used := if t.starts != [] && call.at < t.starts[|t.starts| - 1] + window then UnitsOf(t.grants, |t.starts| - 1) else 0;
      Allowed(t.counter, call) <==> used + call.n <= limit
    ensures !Allowed(Run(calls).counter, call) ==>
      Live(Script(Run(calls).counter, call), call.at) == Live(Run(calls).counter, call.at)
  {
    assert call == (calls + [call])[|calls|];
    assert forall i :: 0 <= i < |calls| ==> calls[i] == (calls + [call])[i];
    HistoryKeepsInv(calls, limit, window);
    var t := Run(calls);
    if calls != [] { assert LastCall(calls) == (calls + [call])[|calls| - 1].at; }
    LiveFacts(t, limit, window, call);
  }

  lemma {:induction false} DuringIsTwoLives(grants: seq<Grant>, life: nat, from: Time, to: Time)
    requires forall i :: 0 <= i < |grants| && from <= grants[i].at < to ==> grants[i].life == life || grants[i].life == life + 1
    requires forall i :: 0 <= i < |grants| ==> grants[i].n >= 1
    ensures UnitsDuring(grants, from, to) + UnitsBefore(grants, life, from) <= UnitsOf(grants, life) + UnitsOf(grants, life + 1)
  {
    if grants != [] {
      DuringIsTwoLives(grants[..|grants| - 1], life, from, to);
    }
  }

  lemma {:induction false} NoneNegative(grants: seq<Grant>, life: nat, to: Time)
    requires forall j :: 0 <= j < |grants| ==> grants[j].n >= 1
    ensures UnitsBefore(grants, life, to) >= 0
  {
    if grants != [] {
      NoneNegative(grants[..|grants| - 1], life, to);
    }
  }

  lemma {:induction false} OpenerCounts(grants: seq<Grant>, i: nat, life: nat, to: Time)
    requires i < |grants| && grants[i].life == life && grants[i].at < to
    requires forall j :: 0 <= j < |grants| ==> grants[j].n >= 1
    ensures UnitsBefore(grants, life, to) >= 1
  {
    var rest := grants[..|grants| - 1];
    if i < |grants| - 1 {
      OpenerCounts(rest, i, life, to);
    } else {
      NoneNegative(rest, life, to);
    }
  }

  lemma {:induction false} DuringIsOneLife(grants: seq<Grant>, life: nat, from: Time, to: Time)
    requires forall i :: 0 <= i < |grants| && from <= grants[i].at < to ==> grants[i].life == life
    requires forall i :: 0 <= i < |grants| ==> grants[i].n >= 1
    ensures UnitsDuring(grants, from, to) <= UnitsOf(grants, life)
  {
    if grants != [] {
      DuringIsOneLife(grants[..|grants| - 1], life, from, to);
    }
  }

  lemma {:induction false} NothingDuring(grants: seq<Grant>, from: Time, to: Time)
    requires forall i :: 0 <= i < |grants| ==> !(from <= grants[i].at < to)
    ensures UnitsDuring(grants, from, to) == 0
  {
    if grants != [] {
      NothingDuring(grants[..|grants| - 1], from, to);
    }
  }

  /** The lifetime of the earliest admission of an interval. */
  lemma EarliestLife(grants: seq<Grant>, from: Time, to: Time, k: nat) returns (i: nat)
    requires k < |grants| && from <= grants[k].at < to
    ensures i < |grants| && from <= grants[i].at < to
    ensures forall j :: 0 <= j < |grants| && from <= grants[j].at < to ==> grants[i].life <= grants[j].life
    decreases grants[k].life
  {
    if j :| 0 <= j < |grants| && from <= grants[j].at < to && grants[j].life < grants[k].life {
      i := EarliestLife(grants, from, to, j);
    } else {
      i := k;
    }
  }

  ghost predicate Spaced(starts: seq<Time>, window: nat) {
    forall i, j :: 0 <= i < j < |starts| ==> starts[i] + window <= starts[j]
  }

  lemma SpacedTwice(starts: seq<Time>, window: nat, i: nat)
    requires Spaced(starts, window)
    ensures forall k :: i + 1 < k < |starts| ==> starts[i] + 2 * window <= starts[k]
  {
    if i + 1 < |starts| { assert starts[i] + window <= starts[i + 1]; }
  }

  /** When two lifetimes meet in an interval of one window, they are consecutive and the first one opened before it. */
  lemma TwoLivesBound(grants: seq<Grant>, starts: seq<Time>, limit: int, window: nat, from: Time, first: nat, other: nat)
    requires GrantsOk(grants, starts, window) && Opened(grants, starts) && Bounded(grants, |starts|, limit)
    requires Spaced(starts, window)
    requires first < |grants| && other < |grants| && grants[first].life < grants[other].life
    requires from <= grants[first].at < from + window && from <= grants[other].at < from + window
    requires forall j :: 0 <= j < |grants| && from <= grants[j].at < from + window ==> grants[first].life <= grants[j].life
    ensures UnitsDuring(grants, from, from + window) <= 2 * limit - 1
  {
    var life := grants[first].life;
    assert UnitsOf(grants, life) <= limit && UnitsOf(grants, life + 1) <= limit;
    assert starts[life] + window <= starts[grants[other].life];
    assert OpenedAt(grants, life, starts[life]);
    var open :| 0 <= open < |grants| && grants[open].life == life && grants[open].at == starts[life];
    OpenerCounts(grants, open, life, from);
    SpacedTwice(starts, window, life);
    DuringIsTwoLives(grants, life, from, from + window);
  }

  lemma IntervalBound(grants: seq<Grant>, starts: seq<Time>, limit: int, window: nat, from: Time)
    requires GrantsOk(grants, starts, window) && Opened(grants, starts) && Bounded(grants, |starts|, limit)
    requires Spaced(starts, window) && limit >= 1
    ensures UnitsDuring(grants, from, from + window) <= 2 * limit - 1
  {
    var to := from + window;
    if k :| 0 <= k < |grants| && from <= grants[k].at < to {
      var first := EarliestLife(grants, from, to, k);
      if l :| 0 <= l < |grants| && from <= grants[l].at < to && grants[l].life != grants[first].life {
        TwoLivesBound(grants, starts, limit, window, from, first, l);
      } else {
        DuringIsOneLife(grants, grants[first].life, from, to);
        assert UnitsOf(grants, grants[first].life) <= limit;
      }
    } else {
      NothingDuring(grants, from, to);
    }
  }

  /**
   Any interval of one window length admits at most 2*limit - 1 units, wherever it lies against the lifetimes:
   if two of them meet in it, the unit that opened the first one lies before it.
   */
  lemma WindowBound(calls: seq<Call>, limit: int, window: nat, from: Time)
    requires Uniform(calls, limit, window) && window >= 1 && limit >= 1
    ensures UnitsDuring(Run(calls).grants, from, from + window) <= 2 * limit - 1
  {
    HistoryKeepsInv(calls, limit, window);
    IntervalBound(Run(calls).grants, Run(calls).starts, limit, window, from);
  }

  /** A burst at the end of one lifetime and one at the start of the next. */
  function Bursts(limit: int, window: nat): seq<Call>
    requires window >= 1
  {
    [Call(0, limit, 1, window), Call(window - 1, limit, limit - 1, window), Call(window, limit, limit, window)]
  }

  lemma RunBursts(limit: int, window: nat)
    requires limit >= 2 && window >= 2
    ensures Run(Bursts(limit, window)).grants
         == [Grant(0, 1, 0)] + [Grant(window - 1, limit - 1, 0)] + [Grant(window, limit, 1)]
  {
    var c := Bursts(limit, window);
    var ga, gb := Grant(0, 1, 0), Grant(window - 1, limit - 1, 0);
    assert c[..1] == [c[0]] && c[..2] == [c[0], c[1]] && [c[0]][..0] == [] && c[..2][..1] == c[..1];
    assert Run(c[..1]) == Trace(Some(Counter(1, Some(window))), [ga], [0]);
    assert Run(c[..2]) == Trace(Some(Counter(limit, Some(window))), [ga] + [gb], [0]);
    assert Run(c) == Step(Run(c[..2]), c[2]);
  }

  lemma DuringAppend(grants: seq<Grant>, g: Grant, from: Time, to: Time)
    ensures UnitsDuring(grants + [g], from, to) == UnitsDuring(grants, from, to) + if from <= g.at < to then g.n else 0
  {
    assert (grants + [g])[..|grants|] == grants;
  }

  /** The bound is sharp: a burst at the end of one lifetime and one at the start of the next. */
  lemma WindowBoundIsReached(limit: int, window: nat)
    requires limit >= 2 && window >= 2
    ensures Uniform(Bursts(limit, window), limit, window)
    ensures UnitsDuring(Run(Bursts(limit, window)).grants, window - 1, 2 * window - 1) == 2 * limit - 1
  {
    RunBursts(limit, window);
    var ga, gb, gc := Grant(0, 1, 0), Grant(window - 1, limit - 1, 0), Grant(window, limit, 1);
    DuringAppend([], ga, window - 1, 2 * window - 1);
    DuringAppend([ga], gb, window - 1, 2 * window - 1);
    DuringAppend([ga] + [gb], gc, window - 1, 2 * window - 1);
    assert [] + [ga] == [ga];
  }

  /** The limiter over a Redis database of counters. */
  class FixedWindowLimiter {
    var keys: map<string, Counter>
    ghost var history: map<string, seq<Call>>

    constructor ()
      ensures Valid() && keys == map[] && history == map[]
    {
      keys, history := map[], map[];
    }

    ghost function Calls(key: string): seq<Call>
      reads this
    {
      if key in history then history[key] else []
    }

    function Stored(key: string): Option<Counter>
      reads this
    {
      if key in keys then Some(keys[key]) else None
    }

    /** Each counter is what the calls on its own key made of it. */
    ghost predicate Valid()
      reads this
    {
      forall key :: Stored(key) == Run(Calls(key)).counter
    }

    method AllowN(key: string, limit: int, n: int, window: int, now: Time) returns (allowed: bool)
      requires Valid()
      modifies this
      ensures Valid()
      ensures history == old(history)[key := old(Calls(key)) + [Call(now, limit, n, window)]]
      ensures allowed <==> Allowed(old(Stored(key)), Call(now, limit, n, window))
      ensures forall other :: other != key ==> Stored(other) == old(Stored(other))
      ensures !allowed ==> Live(Stored(key), now) == old(Live(Stored(key), now))
    {
      ghost var call := Call(now, limit, n, window);
      ghost var before := Calls(key);
      assert (before + [call])[..|before|] == before;
      var current := 0;
      if key in keys && (keys[key].expires.None? || now < keys[key].expires.value) {
        current := keys[key].value;
      } else {
        keys := keys - {key};
      }
      if current + n > limit {
        allowed := false;
      } else {
        var next := current + n;
        keys := keys[key := Counter(next, if key in keys then keys[key].expires else None)];
        if next == n {
          keys := if window <= 0 then keys - {key} else keys[key := Counter(next, Some(now + window))];
        }
        allowed := true;
      }
      history := history[key := before + [call]];
      assert Calls(key) == before + [call] && Stored(key) == Script(Run(before).counter, call);
      assert forall other :: other != key ==> Stored(other) == old(Stored(other)) && Calls(other) == old(Calls(other));
    }

    method Allow(key: string, limit: int, window: int, now: Time) returns (allowed: bool)
      requires Valid()
      modifies this
      ensures Valid() && history == old(history)[key := old(Calls(key)) + [Call(now, limit, 1, window)]]
      ensures allowed <==> Allowed(old(Stored(key)), Call(now, limit, 1, window))
    {
      allowed := AllowN(key, limit, 1, window, now);
    }
  }
}
