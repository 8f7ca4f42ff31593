/**
  The fixed-window rate limiter (packages/core/src/limits/fixed-window-rate-limiter.ts) and the
  per-session datagram rate that is built the same way
  (packages/nest-webtransport/src/server/webtransport-runtime.ts:1201-1212).

  `Windows` is the specification and the bounds over whole runs; `RateLimiters` holds the limiter object; the meter is two fields of a session.
*/
module Windows {
  import opened Wrappers

  const MAX_SAFE_INTEGER := 9_007_199_254_740_991

  datatype Limits = Limits(limit: nat, windowMs: real) {
    /** What the constructor insists on. */
    predicate Valid() {
      1 <= limit <= MAX_SAFE_INTEGER && 0.0 < windowMs
    }
  }

  datatype Window = Window(startedAt: Option<real>, used: nat)

  const Unused := Window(None, 0)

  datatype Answer = Consumed | Exhausted | InvalidAmount

  function Refresh(w: Window, l: Limits, now: real): Window {
    if w.startedAt.None? || now < w.startedAt.value || now - w.startedAt.value >= l.windowMs
    then Window(Some(now), 0) else w
  }

  function TryConsume(w: Window, l: Limits, amount: int, now: real): (Window, Answer) {
    if amount < 1 || MAX_SAFE_INTEGER < amount then (w, InvalidAmount)
    else
      var current := Refresh(w, l, now);
      if amount > l.limit - current.used then (current, Exhausted)
      else (current.(used := current.used + amount), Consumed)
  }

  function RetryAfter(w: Window, l: Limits, now: real): (Window, real) {
    var current := Refresh(w, l, now);
    var left := current.startedAt.value + l.windowMs - now;
    (current, if current.used < l.limit || left < 0.0 then 0.0 else left)
  }

  // ----- runs -----

  datatype Call = Consume(amount: int, at: real) | AskRetry(at: real)

  datatype Grant = Grant(at: real, amount: nat)

  datatype Log = Log(window: Window, grants: seq<Grant>)

  function Step(log: Log, l: Limits, call: Call): Log {
    match call
    case Consume(amount, at) =>
      var (w, answer) := TryConsume(log.window, l, amount, at);
      Log(w, if answer.Consumed? then log.grants + [Grant(at, amount)] else log.grants)
    case AskRetry(at) => Log(RetryAfter(log.window, l, at).0, log.grants)
  }

  function Run(log: Log, l: Limits, calls: seq<Call>): Log {
    if calls == [] then log else Step(Run(log, l, calls[..|calls| - 1]), l, calls[|calls| - 1])
  }

  /** The clock never runs backwards, from `since` on. */
  predicate Timely(calls: seq<Call>, since: real) {
    && (forall i :: 0 <= i < |calls| ==> since <= calls[i].at)
    && (forall i, j :: 0 <= i < j < |calls| ==> calls[i].at <= calls[j].at)
  }

  /** The amount granted in the half-open interval from `from` to `to`. */
  function Between(grants: seq<Grant>, from: real, to: real): nat {
    if grants == [] then 0
    else
      var g := grants[|grants| - 1];
      Between(grants[..|grants| - 1], from, to) + if from <= g.at < to then g.amount else 0
  }

  /** The amount granted in the half-open interval of one window length that starts at `from`. */
  function Span(grants: seq<Grant>, l: Limits, from: real): nat {
    Between(grants, from, from + l.windowMs)
  }

  function Since(grants: seq<Grant>, from: real): nat {
    if grants == [] then 0
    else
      var g := grants[|grants| - 1];
      Since(grants[..|grants| - 1], from) + if from <= g.at then g.amount else 0
  }

  lemma {:induction false} BetweenIsPart(grants: seq<Grant>, from: real, to: real, since: real)
    requires since <= from
    ensures Between(grants, from, to) <= Since(grants, since)
  {
    if grants != [] {
      BetweenIsPart(grants[..|grants| - 1], from, to, since);
    }
  }

  lemma {:induction false} BetweenSplits(grants: seq<Grant>, from: real, mid: real, to: real)
    requires from <= mid <= to
    ensures Between(grants, from, to) == Between(grants, from, mid) + Between(grants, mid, to)
  {
    if grants != [] {
      BetweenSplits(grants[..|grants| - 1], from, mid, to);
    }
  }

  lemma {:induction false} NothingSince(grants: seq<Grant>, now: real)
    requires forall i :: 0 <= i < |grants| ==> grants[i].at < now
    ensures Since(grants, now) == 0
  {
    if grants != [] {
      NothingSince(grants[..|grants| - 1], now);
    }
  }

  lemma Appended(grants: seq<Grant>, g: Grant, from: real, to: real)
    ensures Between(grants + [g], from, to) == Between(grants, from, to) + if from <= g.at < to then g.amount else 0
    ensures Since(grants + [g], from) == Since(grants, from) + if from <= g.at then g.amount else 0
  {
    assert (grants + [g])[..|grants|] == grants;
  }

  lemma NothingBetween(from: real, to: real)
    ensures Between([], from, to) == 0
  {
  }

  // ----- the bound -----

  /** The current window has granted what it says, the part of the previous window that a window length
      can still reach is within the limit, and so is twice the limit everywhere. */
  ghost predicate Honest(log: Log, l: Limits, now: real) {
    && (forall i :: 0 <= i < |log.grants| ==> log.grants[i].at <= now)
    && (forall x: real :: Span(log.grants, l, x) <= 2 * l.limit)
    && match log.window.startedAt
       case None => log.grants == [] && log.window.used == 0
       case Some(start) =>
         && start <= now
         && (forall i :: 0 <= i < |log.grants| ==> log.grants[i].at < start + l.windowMs)
         && log.window.used == Since(log.grants, start) <= l.limit
         && forall x: real :: start - l.windowMs < x ==> Between(log.grants, x, start) <= l.limit
  }

  lemma RefreshKeepsHonest(log: Log, l: Limits, before: real, now: real)
    requires l.Valid() && Honest(log, l, before) && before <= now
    ensures Honest(log.(window := Refresh(log.window, l, now)), l, now)
  {
    if log.window.startedAt.Some? && now - log.window.startedAt.value >= l.windowMs {
      var start := log.window.startedAt.value;
      forall x: real | now - l.windowMs < x
        ensures Between(log.grants, x, now) <= l.limit
      {
        BetweenIsPart(log.grants, x, now, start);
      }
      NothingSince(log.grants, now);
    }
  }

  lemma GrantKeepsHonest(log: Log, l: Limits, amount: nat, now: real)
    requires l.Valid() && Honest(log, l, now) && log.window.startedAt.Some?
    requires now < log.window.startedAt.value + l.windowMs && amount <= l.limit - log.window.used
    ensures Honest(Log(log.window.(used := log.window.used + amount), log.grants + [Grant(now, amount)]), l, now)
  {
    var start := log.window.startedAt.value;
    var g := Grant(now, amount);
    Appended(log.grants, g, start, start);
    forall x: real
      ensures Span(log.grants + [g], l, x) <= 2 * l.limit
      ensures start - l.windowMs < x ==> Between(log.grants + [g], x, start) <= l.limit
    {
      Appended(log.grants, g, x, x + l.windowMs);
      Appended(log.grants, g, x, start);
      assert Span(log.grants, l, x) <= 2 * l.limit;
      if x <= now < x + l.windowMs {
        ReachesBackOnce(log, l, x);
      }
    }
  }

  /** An interval that reaches the present is a part of the current window and of at most one other. */
  lemma ReachesBackOnce(log: Log, l: Limits, x: real)
    requires l.Valid() && log.window.startedAt.Some? && log.window.startedAt.value < x + l.windowMs
    requires log.window.used == Since(log.grants, log.window.startedAt.value)
    requires forall x: real :: log.window.startedAt.value - l.windowMs < x ==>
               Between(log.grants, x, log.window.startedAt.value) <= l.limit
    ensures Span(log.grants, l, x) <= l.limit + log.window.used
  {
    var start := log.window.startedAt.value;
    if x < start {
      BetweenSplits(log.grants, x, start, x + l.windowMs);
      BetweenIsPart(log.grants, start, x + l.windowMs, start);
    } else {
      BetweenIsPart(log.grants, x, x + l.windowMs, start);
    }
  }

  lemma StepKeepsHonest(log: Log, l: Limits, call: Call, before: real)
    requires l.Valid() && Honest(log, l, before) && before <= call.at
    ensures Honest(Step(log, l, call), l, call.at)
  {
    hide Honest;
    RefreshKeepsHonest(log, l, before, call.at);
    var current := log.(window := Refresh(log.window, l, call.at));
    if call.Consume? && 1 <= call.amount <= MAX_SAFE_INTEGER {
      if call.amount <= l.limit - current.window.used {
        GrantKeepsHonest(current, l, call.amount, call.at);
      }
    } else if call.Consume? {
      HonestLater(log, l, before, call.at);
    }
  }

  lemma HonestLater(log: Log, l: Limits, before: real, now: real)
    requires Honest(log, l, before) && before <= now
    ensures Honest(log, l, now)
  {
  }

  lemma {:induction false} RunIsHonest(log: Log, l: Limits, calls: seq<Call>, before: real)
    requires l.Valid() && Honest(log, l, before) && Timely(calls, before)
    ensures Honest(Run(log, l, calls), l, if calls == [] then before else calls[|calls| - 1].at)
  {
    hide Honest, Step;
    if calls != [] {
      var n := |calls| - 1;
      RunIsHonest(log, l, calls[..n], before);
      StepKeepsHonest(Run(log, l, calls[..n]), l, calls[n], if n == 0 then before else calls[n - 1].at);
    }
  }

  lemma OpenIsHonest(l: Limits, startedAt: Option<real>, now: real)
    requires l.Valid() && (startedAt.None? || startedAt.value <= now)
    ensures Honest(Log(Window(startedAt, 0), []), l, now)
  {
  }

  /** With a clock that does not run backwards and no reset: whatever is consumed, and whenever, every
      half-open interval of one window length, wherever it starts, is granted at most twice the limit. */
  lemma TwiceTheLimit(l: Limits, calls: seq<Call>, since: real, from: real)
    requires l.Valid() && Timely(calls, since)
    ensures Span(Run(Log(Unused, []), l, calls).grants, l, from) <= 2 * l.limit
  {
    OpenIsHonest(l, None, since);
    RunIsHonest(Log(Unused, []), l, calls, since);
  }

  /** The bound is tight for every limit and window: two bursts meet at the edge of a window. */
  lemma TwiceTheLimitIsReached(l: Limits)
    requires l.Valid()
    ensures var half := l.windowMs / 2.0;
            var calls := [AskRetry(0.0), Consume(l.limit, half), Consume(l.limit, l.windowMs)];
            && Timely(calls, 0.0)
            && Span(Run(Log(Unused, []), l, calls).grants, l, half) == 2 * l.limit
  {
    hide Between, Since;
    var half := l.windowMs / 2.0;
    var calls := [AskRetry(0.0), Consume(l.limit, half), Consume(l.limit, l.windowMs)];
    var one := Grant(half, l.limit);
    var two := Grant(l.windowMs, l.limit);
    assert calls[..2][..1] == [AskRetry(0.0)];
    assert calls[..2] == [AskRetry(0.0), Consume(l.limit, half)];
    assert Run(Log(Unused, []), l, calls[..1][..0]) == Log(Unused, []);
    assert calls[..1] == [AskRetry(0.0)];
    assert Run(Log(Unused, []), l, calls[..1]) == Log(Window(Some(0.0), 0), []);
    assert Run(Log(Unused, []), l, calls[..2]) == Log(Window(Some(0.0), l.limit), [one]);
    assert Run(Log(Unused, []), l, calls) == Log(Window(Some(l.windowMs), l.limit), [one, two]);
    Appended([one], two, half, half + l.windowMs);
    Appended([], one, half, half + l.windowMs);
    NothingBetween(half, half + l.windowMs);
    assert [one] + [two] == [one, two] && [] + [one] == [one];
  }

  // ----- exactly what is granted -----

  /** What has been granted in the window that is open at this moment, if one is. */
  function InWindow(log: Log, l: Limits, now: real): nat {
    if log.window.startedAt.Some? && log.window.startedAt.value <= now < log.window.startedAt.value + l.windowMs
    then Since(log.grants, log.window.startedAt.value) else 0
  }

  /** With a clock that does not run backwards, after any calls: an amount is refused as invalid exactly if
      it is not a positive safe integer, and consumed exactly if it fits beside what the open window has
      granted; so nothing that fits is ever refused. */
  lemma ConsumedExactly(l: Limits, calls: seq<Call>, since: real, amount: int, now: real)
    requires l.Valid() && Timely(calls + [Consume(amount, now)], since)
    ensures var log := Run(Log(Unused, []), l, calls); var answer := TryConsume(log.window, l, amount, now).1;
            && (answer.InvalidAmount? <==> amount < 1 || MAX_SAFE_INTEGER < amount)
            && (answer.Consumed? <==> 1 <= amount <= MAX_SAFE_INTEGER && InWindow(log, l, now) + amount <= l.limit)
  {
    var all := calls + [Consume(amount, now)];
    assert forall i :: 0 <= i < |calls| ==> calls[i] == all[i];
    assert all[|calls|].at == now;
    OpenIsHonest(l, None, since);
    RunIsHonest(Log(Unused, []), l, calls, since);
  }

  /** A clock that ran backwards, out of the window, opens a new one. */
  lemma BackwardsOpensAnew(w: Window, l: Limits, amount: int, now: real)
    requires l.Valid() && w.startedAt.Some? && now < w.startedAt.value && 1 <= amount <= MAX_SAFE_INTEGER
    ensures var (w', answer) := TryConsume(w, l, amount, now);
            && (answer.Consumed? <==> amount <= l.limit)
            && w' == Window(Some(now), if answer.Consumed? then amount else 0)
  {
  }

  // ----- retryAfterMs -----

  /** Between the moment it is asked and the moment it names, nothing at all can be consumed; at the
      moment it names, one unit can. In between any number of calls may be made. */
  lemma RetryAfterIsExact(w: Window, l: Limits, now: real, calls: seq<Call>)
    requires l.Valid() && w.used <= l.limit
    requires Timely(calls, now)
    requires forall i :: 0 <= i < |calls| ==> calls[i].at < now + RetryAfter(w, l, now).1
    ensures var (asked, wait) := RetryAfter(w, l, now);
            && 0.0 <= wait <= l.windowMs
            && Run(Log(asked, []), l, calls) == Log(asked, [])
            && TryConsume(asked, l, 1, now + wait).1 == Consumed
  {
    var (asked, wait) := RetryAfter(w, l, now);
    if calls != [] {
      assert now <= calls[0].at < now + wait;
    }
    NothingWhileFull(asked, l, now, calls);
  }

  lemma {:induction false} NothingWhileFull(w: Window, l: Limits, now: real, calls: seq<Call>)
    requires l.Valid() && w.startedAt.Some? && w.startedAt.value <= now && w.used <= l.limit
    requires Timely(calls, now)
    requires w.used < l.limit ==> calls == []
    requires forall i :: 0 <= i < |calls| ==> calls[i].at < w.startedAt.value + l.windowMs
    ensures Run(Log(w, []), l, calls) == Log(w, [])
  {
    if calls != [] {
      NothingWhileFull(w, l, now, calls[..|calls| - 1]);
    }
  }

  // ----- datagrams -----

  /** The two fields of a session that meter its datagrams: a window that is always open. */
  datatype Meter = Meter(startedAt: real, used: nat) {
    function AsWindow(): Window {
      Window(Some(startedAt), used)
    }
  }

  /** The datagram rate: one unit a call, and no guard against a clock that runs backwards. */
  function TakeDatagram(m: Meter, l: Limits, now: real): (Meter, bool) {
    var current := if now - m.startedAt >= l.windowMs then Meter(now, 0) else m;
    if current.used >= l.limit then (current, false) else (current.(used := current.used + 1), true)
  }

  /** The meter of a session, with everything it has granted. */
  datatype Metered = Metered(meter: Meter, grants: seq<Grant>) {
    function AsLog(): Log {
      Log(meter.AsWindow(), grants)
    }

    function Ask(l: Limits, now: real): Metered {
      var (m, taken) := TakeDatagram(meter, l, now);
      Metered(m, if taken then grants + [Grant(now, 1)] else grants)
    }
  }

  function Datagrams(l: Limits, openedAt: real, times: seq<real>): Metered {
    if times == [] then Metered(Meter(openedAt, 0), [])
    else Datagrams(l, openedAt, times[..|times| - 1]).Ask(l, times[|times| - 1])
  }

  function Units(times: seq<real>): (calls: seq<Call>)
    ensures |calls| == |times| && forall i :: 0 <= i < |times| ==> calls[i] == Consume(1, times[i])
  {
    seq(|times|, i requires 0 <= i < |times| => Consume(1, times[i]))
  }

  /** While the clock does not run backwards it is the fixed-window limiter, one unit at a time. */
  lemma {:induction false} DatagramsAreUnits(l: Limits, openedAt: real, times: seq<real>)
    requires l.Valid() && Timely(Units(times), openedAt)
    ensures Datagrams(l, openedAt, times).AsLog() == Run(Log(Window(Some(openedAt), 0), []), l, Units(times))
  {
    hide Honest, TakeDatagram, TryConsume, Refresh;
    if times != [] {
      var n := |times| - 1;
      var before := Units(times[..n]);
      assert Units(times)[..n] == before;
      assert Timely(before, openedAt);
      DatagramsAreUnits(l, openedAt, times[..n]);
      OpenIsHonest(l, Some(openedAt), openedAt);
      RunIsHonest(Log(Window(Some(openedAt), 0), []), l, before, openedAt);
      UnitIsDatagram(Datagrams(l, openedAt, times[..n]), l, if n == 0 then openedAt else times[n - 1], times[n]);
    }
  }

  lemma UnitIsDatagram(d: Metered, l: Limits, before: real, now: real)
    requires l.Valid() && Honest(d.AsLog(), l, before) && before <= now
    ensures d.Ask(l, now).AsLog() == Step(d.AsLog(), l, Consume(1, now))
  {
  }

  lemma AskKeepsHonest(d: Metered, l: Limits, before: real, now: real)
    requires l.Valid() && Honest(d.AsLog(), l, before) && before <= now
    ensures Honest(d.Ask(l, now).AsLog(), l, now)
  {
    hide Honest, Step, Metered.Ask;
    UnitIsDatagram(d, l, before, now);
    StepKeepsHonest(d.AsLog(), l, Consume(1, now), before);
  }

  /** With such a clock a datagram is in rate exactly if the open window has granted fewer than the limit. */
  lemma DatagramTakenExactly(l: Limits, openedAt: real, times: seq<real>, now: real)
    requires l.Valid() && Timely(Units(times + [now]), openedAt)
    ensures var d := Datagrams(l, openedAt, times);
            TakeDatagram(d.meter, l, now).1 <==> InWindow(d.AsLog(), l, now) < l.limit
  {
    hide Honest, TakeDatagram, InWindow, Run, Datagrams;
    var all := Units(times + [now]);
    assert forall i :: 0 <= i < |times| ==> Units(times)[i] == all[i];
    assert all[|times|].at == now;
    DatagramsAreUnits(l, openedAt, times);
    OpenIsHonest(l, Some(openedAt), openedAt);
    RunIsHonest(Log(Window(Some(openedAt), 0), []), l, Units(times), openedAt);
    var before := if times == [] then openedAt else times[|times| - 1];
    assert times != [] ==> all[|times| - 1].at == before;
    HonestMeterTakesIff(Datagrams(l, openedAt, times), l, before, now);
  }

  lemma HonestMeterTakesIff(d: Metered, l: Limits, before: real, now: real)
    requires l.Valid() && Honest(d.AsLog(), l, before) && before <= now
    ensures TakeDatagram(d.meter, l, now).1 <==> InWindow(d.AsLog(), l, now) < l.limit
  {
  }

  lemma DatagramsAreBounded(l: Limits, openedAt: real, times: seq<real>, from: real)
    requires l.Valid() && Timely(Units(times), openedAt)
    ensures Span(Datagrams(l, openedAt, times).grants, l, from) <= 2 * l.limit
  {
    DatagramsAreUnits(l, openedAt, times);
    OpenIsHonest(l, Some(openedAt), openedAt);
    RunIsHonest(Log(Window(Some(openedAt), 0), []), l, Units(times), openedAt);
  }
}

module RateLimiters {
  import opened Wrappers
  import W = Windows

  class FixedWindowRateLimiter {
    const limits: W.Limits
    var windowStartedAt: Option<real>
    var used: nat

    ghost function Window(): W.Window
      reads this
    {
      W.Window(windowStartedAt, used)
    }

    ghost predicate Valid()
      reads this
    {
      limits.Valid() && used <= limits.limit
    }

    constructor (limit: nat, windowMs: real)
      requires W.Limits(limit, windowMs).Valid()
      ensures Valid() && limits == W.Limits(limit, windowMs) && Window() == W.Unused
    {
      limits := W.Limits(limit, windowMs);
      windowStartedAt, used := None, 0;
    }

    method TryConsume(amount: int, now: real) returns (answer: W.Answer)
      requires Valid()
      modifies this
      ensures Valid() && (Window(), answer) == W.TryConsume(old(Window()), limits, amount, now)
    {
      if amount < 1 || W.MAX_SAFE_INTEGER < amount {
        return W.InvalidAmount;
      }
      RefreshWindow(now);
      if amount > limits.limit - used {
        return W.Exhausted;
      }
      used := used + amount;
      return W.Consumed;
    }

    method RetryAfterMs(now: real) returns (wait: real)
      requires Valid()
      modifies this
      ensures Valid() && (Window(), wait) == W.RetryAfter(old(Window()), limits, now)
    {
      RefreshWindow(now);
      if used < limits.limit || windowStartedAt.None? {
        return 0.0;
      }
      wait := windowStartedAt.value + limits.windowMs - now;
      if wait < 0.0 {
        wait := 0.0;
      }
    }

    method Reset()
      modifies this
      ensures Window() == W.Unused
    {
      windowStartedAt, used := None, 0;
    }

    method RefreshWindow(now: real)
      requires Valid()
      modifies this
      ensures Valid() && Window() == W.Refresh(old(Window()), limits, now)
    {
      if windowStartedAt.None? || now < windowStartedAt.value || now - windowStartedAt.value >= limits.windowMs {
        windowStartedAt, used := Some(now), 0;
      }
    }
  }
}
