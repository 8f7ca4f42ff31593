/**
  The idle timeout of a session (packages/nest-webtransport/src/server/webtransport-runtime.ts:1100-1123,
  1277-1302, 1387-1395): one timer that is never restarted by activity, only re-armed when it fires.

  `Idle` is the specification and what it means over whole runs; `IdleTimers` is the object.
*/
module Idle {
  import opened Wrappers

  /** `last` is the last activity, `timer` the deadline of the armed timer, `streams` the tracked streams,
      `requests` the times at which an idle close was requested. */
  datatype State = State(
    last: real,
    timer: Option<real>,
    streams: nat,
    intakeAborted: bool,
    finalized: bool,
    requests: seq<real>)

  /** The state when admission begins, before its first touch. */
  function Admitted(now: real): State {
    State(now, None, 0, false, false, [])
  }

  /** `touch`; a timeout of zero switches the timer off. */
  function Touch(s: State, timeout: real, now: real): State {
    if s.finalized || timeout == 0.0 then s
    else s.(last := now, timer := if s.timer.Some? then s.timer else Some(now + timeout))
  }

  /** The timer callback. */
  function CheckIdle(s: State, timeout: real, now: real): State {
    var fired := s.(timer := None);
    if s.finalized || s.intakeAborted then fired
    else if s.streams > 0 then Touch(fired, timeout, now)
    else
      var remaining := timeout - (now - s.last);
      if remaining > 0.0 then fired.(timer := Some(now + remaining))
      else fired.(requests := s.requests + [now])
  }

  datatype Happening = Touched | TimerFired | StreamTracked | StreamReleased | IntakeStopped | Finalized

  datatype Event = Event(what: Happening, at: real)

  predicate Enabled(s: State, e: Event) {
    match e.what
    case TimerFired => s.timer.Some? && s.timer.value <= e.at
    case StreamTracked => !s.finalized && !s.intakeAborted
    case StreamReleased => s.streams > 0
    case _ => true
  }

  function Step(s: State, timeout: real, e: Event): State
    requires Enabled(s, e)
  {
    match e.what
    case Touched => Touch(s, timeout, e.at)
    case TimerFired => CheckIdle(s, timeout, e.at)
    case StreamTracked => Touch(s, timeout, e.at).(streams := s.streams + 1)
    case StreamReleased =>
      var fewer := s.(streams := s.streams - 1);
      if fewer.streams == 0 then Touch(fewer, timeout, e.at) else fewer
    case IntakeStopped => s.(intakeAborted := true)
    case Finalized => s.(intakeAborted := true, finalized := true, timer := None)
  }

  // ----- runs -----

  ghost predicate IsRun(timeout: real, start: real, states: seq<State>, events: seq<Event>) {
    && 0.0 < timeout
    && |states| == |events| + 1
    && states[0] == Touch(Admitted(start), timeout, start)
    && (forall i :: 0 <= i < |events| ==> Enabled(states[i], events[i]) && states[i + 1] == Step(states[i], timeout, events[i]))
    && (forall i :: 0 <= i < |events| ==> start <= events[i].at)
    && (forall i, j :: 0 <= i < j < |events| ==> events[i].at <= events[j].at)
  }

  /** The time of the last event. */
  function Now(start: real, events: seq<Event>, k: nat): real
    requires k <= |events|
  {
    if k == 0 then start else events[k - 1].at
  }

  /** The armed deadline is never beyond the timeout after the last activity, and a live session always
      has an armed timer unless its close was requested. */
  ghost predicate Inv(s: State, timeout: real, now: real) {
    && s.last <= now
    && (s.timer.Some? ==> s.timer.value <= s.last + timeout)
    && (!s.intakeAborted ==> s.timer.Some? || s.requests != [])
    && (s.finalized ==> s.intakeAborted && s.timer.None?)
    && (forall r :: r in s.requests ==> r <= now)
  }

  lemma StepKeepsInv(s: State, timeout: real, e: Event, now: real)
    requires 0.0 < timeout && Inv(s, timeout, now) && Enabled(s, e) && now <= e.at
    ensures Inv(Step(s, timeout, e), timeout, e.at)
    ensures s.last <= Step(s, timeout, e).last
  {
  }

  lemma {:induction false} EveryRunKeepsInv(timeout: real, start: real, states: seq<State>, events: seq<Event>, k: nat)
    requires IsRun(timeout, start, states, events) && k < |states|
    ensures Inv(states[k], timeout, Now(start, events, k))
  {
    if k > 0 {
      EveryRunKeepsInv(timeout, start, states, events, k - 1);
      StepKeepsInv(states[k - 1], timeout, events[k - 1], Now(start, events, k - 1));
      assert states[k - 1 + 1] == Step(states[k - 1], timeout, events[k - 1]);
    }
  }

  /** In every run: the deadline never exceeds last activity plus the timeout, and as long as intake is
      open a timer is armed until a close is requested. */
  lemma DeadlineIsNeverLate(timeout: real, start: real, states: seq<State>, events: seq<Event>, k: nat)
    requires IsRun(timeout, start, states, events) && k < |states|
    ensures states[k].timer.Some? ==> states[k].timer.value <= states[k].last + timeout
    ensures !states[k].intakeAborted ==> states[k].timer.Some? || states[k].requests != []
  {
    EveryRunKeepsInv(timeout, start, states, events, k);
  }

  /** What was active by the time of event `k`: a touch, or a stream that was still tracked. */
  predicate ActiveAt(s: State, e: Event) {
    e.what.Touched? || e.what.StreamTracked? || s.streams > 0
  }

  /** While the session is live, everything active so far is at or before `last`, unless a stream is
      tracked now. */
  lemma {:induction false} ActivityIsRemembered(timeout: real, start: real, states: seq<State>, events: seq<Event>,
                                                k: nat, j: nat)
    requires IsRun(timeout, start, states, events) && j < k < |states|
    requires ActiveAt(states[j], events[j]) && !states[k].finalized && states[k].streams == 0
    ensures events[j].at <= states[k].last
  {
    var s, e := states[k - 1], events[k - 1];
    assert states[k - 1 + 1] == Step(s, timeout, e);
    EveryRunKeepsInv(timeout, start, states, events, k - 1);
    StepKeepsInv(s, timeout, e, Now(start, events, k - 1));
    if s.streams == 0 && j < k - 1 {
      ActivityIsRemembered(timeout, start, states, events, k - 1, j);
    }
  }

  predicate RequestsClose(s: State, t: State) {
    t.requests != s.requests
  }

  /** An idle close is requested only when no stream is tracked, and nothing has been active for at least
      the timeout: neither a touch nor a tracked stream at any time in between. With a timer that fires
      on time, it is requested exactly the timeout after the last activity. */
  lemma ClosesOnlyWhenIdle(timeout: real, start: real, states: seq<State>, events: seq<Event>, k: nat, j: nat)
    requires IsRun(timeout, start, states, events) && j < k < |events|
    requires RequestsClose(states[k], states[k + 1])
    ensures events[k].what.TimerFired? && states[k].streams == 0 && !states[k].intakeAborted && !states[k].finalized
    ensures states[k].last + timeout <= events[k].at
    ensures states[k].timer == Some(events[k].at) ==> states[k].last + timeout == events[k].at
    ensures ActiveAt(states[j], events[j]) ==> events[j].at + timeout <= events[k].at
  {
    assert states[k + 1] == Step(states[k], timeout, events[k]);
    EveryRunKeepsInv(timeout, start, states, events, k);
    if ActiveAt(states[j], events[j]) {
      ActivityIsRemembered(timeout, start, states, events, k, j);
    }
  }

  /** What a firing timer does, exactly. It requests the close if intake is open, no stream is tracked and
      the timeout has passed since the last activity. Otherwise, as long as intake is open, it is armed
      again: for a whole timeout if streams are tracked, which counts as activity, and else for what is left
      of it. Once intake has stopped it does nothing. */
  lemma FiresExactly(s: State, timeout: real, now: real)
    requires 0.0 < timeout && (s.finalized ==> s.intakeAborted) && s.timer.Some? && s.timer.value <= now
    ensures var t := Step(s, timeout, Event(TimerFired, now));
            && (RequestsClose(s, t) <==> !s.intakeAborted && s.streams == 0 && s.last + timeout <= now)
            && (RequestsClose(s, t) ==> t.requests == s.requests + [now])
            && (t.timer.Some? <==> !s.intakeAborted && !RequestsClose(s, t))
            && (t.timer.Some? ==> t.timer.value == (if s.streams > 0 then now else s.last) + timeout)
            && t.last == (if !s.intakeAborted && s.streams > 0 then now else s.last)
            && t.streams == s.streams && t.intakeAborted == s.intakeAborted && t.finalized == s.finalized
  {
  }

  /** An armed timer is never restarted: only its firing and the end of the session change it. */
  lemma NeverRestarted(s: State, timeout: real, e: Event)
    requires Enabled(s, e) && s.timer.Some? && !e.what.TimerFired?
    ensures Step(s, timeout, e).timer == if e.what.Finalized? then None else s.timer
  {
  }

  /** Over every run: once intake has stopped, no idle close is ever requested again. */
  lemma {:induction false} NothingAfterIntakeStops(timeout: real, start: real, states: seq<State>, events: seq<Event>, i: nat, k: nat)
    requires IsRun(timeout, start, states, events) && i <= k < |states| && states[i].intakeAborted
    ensures states[k].intakeAborted && states[k].requests == states[i].requests
    decreases k
  {
    if i < k {
      NothingAfterIntakeStops(timeout, start, states, events, i, k - 1);
      assert states[k - 1 + 1] == Step(states[k - 1], timeout, events[k - 1]);
    }
  }

  /** A session without activity is closed: a timer that fires on time at or after the last activity
      requests the close or is armed for exactly the timeout after it, and then the next one requests it. */
  lemma QuietMeansClosed(s: State, timeout: real, now: real)
    requires 0.0 < timeout && Inv(s, timeout, now) && s.timer.Some? && now <= s.timer.value
    requires !s.intakeAborted && s.streams == 0
    ensures var first := s.timer.value;
            var t := Step(s, timeout, Event(TimerFired, first));
            if first == s.last + timeout then t.requests == s.requests + [first]
            else t.timer == Some(s.last + timeout)
                 && Step(t, timeout, Event(TimerFired, s.last + timeout)).requests == s.requests + [s.last + timeout]
  {
  }
}

module IdleTimers {
  import opened Wrappers
  import I = Idle

  class IdleTimer {
    const timeout: real
    var lastActivityAt: real
    var timer: Option<real>
    var streams: nat
    var intakeAborted: bool
    var finalized: bool
    ghost var requests: seq<real>

    ghost function State(): I.State
      reads this
    {
      I.State(lastActivityAt, timer, streams, intakeAborted, finalized, requests)
    }

    constructor (timeout: real, now: real)
      ensures State() == I.Admitted(now) && this.timeout == timeout
    {
      this.timeout := timeout;
      lastActivityAt, timer, streams, intakeAborted, finalized, requests := now, None, 0, false, false, [];
    }

    method Touch(now: real)
      modifies this`lastActivityAt, this`timer
      ensures State() == I.Touch(old(State()), timeout, now)
    {
      if finalized || timeout == 0.0 {
        return;
      }
      lastActivityAt := now;
      if timer.Some? {
        return;
      }
      timer := Some(now + timeout);
    }

    /** Says whether the session is to be closed for idleness. */
    method CheckIdle(now: real) returns (close: bool)
      modifies this
      ensures State() == I.CheckIdle(old(State()), timeout, now)
      ensures close <==> requests != old(requests)
    {
      timer := None;
      if finalized || intakeAborted {
        return false;
      }
      if streams > 0 {
        Touch(now);
        return false;
      }
      var remaining := timeout - (now - lastActivityAt);
      if remaining > 0.0 {
        timer := Some(now + remaining);
        return false;
      }
      requests := requests + [now];
      return true;
    }

    method TrackStream(now: real)
      requires !finalized && !intakeAborted
      modifies this
      ensures State() == I.Step(old(State()), timeout, I.Event(I.StreamTracked, now))
    {
      Touch(now);
      streams := streams + 1;
    }

    method ReleaseStream(now: real)
      requires streams > 0
      modifies this
      ensures State() == I.Step(old(State()), timeout, I.Event(I.StreamReleased, now))
    {
      streams := streams - 1;
      if streams == 0 && !finalized {
        Touch(now);
      }
    }

    method Finalize(now: real)
      modifies this
      ensures State() == I.Step(old(State()), timeout, I.Event(I.Finalized, now))
    {
      finalized := true;
      timer := None;
      intakeAborted := true;
    }
  }
}
