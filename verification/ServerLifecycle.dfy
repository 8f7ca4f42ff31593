/**
  Starting and stopping the server (packages/core/src/lifecycle/lifecycle.ts and
  packages/nest-webtransport/src/server/webtransport-runtime.ts:157-251, 299-418).

  Every synchronous segment between two awaits is one event. Driver results, timeouts and the
  `finally` clean-ups of the two cached promises are events of the environment, in any order.
*/
module Lifecycles {
  datatype ServerState = Starting | Running | Draining | Stopping | Stopped

  /** The table of allowed transitions. Staying put is always allowed. */
  predicate Allowed(from: ServerState, to: ServerState) {
    from == to ||
    match from
    case Starting => to == Running || to == Stopping
    case Running => to == Draining || to == Stopping
    case Draining => to == Stopping
    case Stopping => to == Stopped
    case Stopped => to == Starting
  }

  /** The order of a server's life. */
  function Position(state: ServerState): nat {
    match state
    case Stopped => 0
    case Starting => 1
    case Running => 2
    case Draining => 3
    case Stopping => 4
  }

  /** The table says: one position forward; or from any position between, at once to the last; and from the
      last to the first. */
  lemma ForwardOnly(from: ServerState, to: ServerState)
    requires from != to
    ensures Allowed(from, to) <==>
            || Position(to) == Position(from) + 1
            || (to == Stopping && from != Stopped)
            || (from == Stopping && to == Stopped)
  {
  }

  ghost predicate Legal(path: seq<ServerState>) {
    forall i :: 0 <= i < |path| - 1 ==> Allowed(path[i], path[i + 1])
  }

  /** On every path of allowed transitions, a server that has begun to drain or to stop runs again only
      after it has been stopped and then started. */
  lemma {:induction false} RunsAgainOnlyAfterAStop(path: seq<ServerState>, i: nat, k: nat)
    requires Legal(path) && i <= k < |path| && path[i] in {Draining, Stopping} && path[k] in {Starting, Running}
    ensures exists j, l :: i < j < l <= k && path[j] == Stopped && path[l] == Starting
    decreases k
  {
    assert Allowed(path[k - 1], path[k - 1 + 1]);
    if path[k - 1] in {Starting, Running} {
      RunsAgainOnlyAfterAStop(path, i, k - 1);
    } else {
      assert path[k - 1] == Stopped && path[k] == Starting;
    }
  }

  class WebTransportLifecycle {
    var state: ServerState

    constructor (initial: ServerState)
      ensures state == initial
    {
      state := initial;
    }

    /** Returns false where the program throws. */
    method Transition(next: ServerState) returns (ok: bool)
      modifies this
      ensures ok <==> Allowed(old(state), next)
      ensures state == if ok then next else old(state)
    {
      if !Allowed(state, next) {
        return false;
      }
      state := next;
      return true;
    }
  }
}

module Servers {
  import opened Wrappers
  import opened Lifecycles

  type StartId = nat

  /** A `performStart`: its driver call is unsettled, or it has settled and its clean-up is due. */
  datatype StartPhase = DriverStarting | StartSettled

  /** Where a `performStop` is suspended; `StopSettled` until the cached promise is cleared. */
  datatype StopPhase = DrainingHandlers | AwaitingStart | ClosingSessions | StoppingDriver | StopSettled

  datatype Server = Server(
    state: ServerState,
    startPromise: Option<StartId>,
    startupController: Option<StartId>,
    starts: map<StartId, StartPhase>,
    nextStart: StartId,
    aborted: set<StartId>,
    stop: Option<StopPhase>,
    faults: nat)

  function Initial(): Server {
    Server(Stopped, None, None, map[], 0, {}, None, 0)
  }

  datatype Event =
    | Bootstrap
    | DriverStarted(id: StartId)
    | DriverStartFailed(id: StartId)
    | StartCleared(id: StartId)
    | StopCalled(graceful: bool)
    | DrainEnded
    | StartAwaitEnded
    | SessionsClosed
    | DriverStopped(ok: bool)
    | StopCleared

  predicate Enabled(s: Server, e: Event) {
    match e
    case DriverStarted(id) => id in s.starts && s.starts[id].DriverStarting?
    case DriverStartFailed(id) => id in s.starts && s.starts[id].DriverStarting?
    case StartCleared(id) => id in s.starts && s.starts[id].StartSettled?
    case DrainEnded => s.stop == Some(DrainingHandlers)
    case StartAwaitEnded => s.stop == Some(AwaitingStart)
    case SessionsClosed => s.stop == Some(ClosingSessions)
    case DriverStopped(_) => s.stop == Some(StoppingDriver)
    case StopCleared => s.stop == Some(StopSettled)
    case _ => true
  }

  /** `lifecycle.transition`, counting the calls that throw. */
  function Transition(s: Server, to: ServerState): Server {
    if Allowed(s.state, to) then s.(state := to) else s.(faults := s.faults + 1)
  }

  /** The call that really starts: nothing cached, and stopped. */
  predicate Starts(s: Server) {
    s.startPromise.None? && s.state == Stopped
  }

  function DoBootstrap(s: Server): Server {
    if !Starts(s) then s
    else
      var id := s.nextStart;
      Transition(s, Starting).(
        startPromise := Some(id), startupController := Some(id),
        starts := s.starts[id := DriverStarting], nextStart := id + 1)
  }

  predicate StillStarting(s: Server, id: StartId) {
    s.startupController == Some(id) && s.state == Starting
  }

  function DoDriverStarted(s: Server, id: StartId): Server {
    var settled := s.(starts := s.starts[id := StartSettled]);
    if StillStarting(s, id) then Transition(settled, Running) else settled
  }

  function DoDriverStartFailed(s: Server, id: StartId): Server {
    var settled := s.(starts := s.starts[id := StartSettled]);
    if StillStarting(s, id) then Transition(Transition(settled, Stopping), Stopped) else settled
  }

  function DoStartCleared(s: Server, id: StartId): Server {
    s.(starts := s.starts - {id},
       startPromise := if s.startPromise == Some(id) then None else s.startPromise,
       startupController := if s.startupController == Some(id) then None else s.startupController)
  }

  /** The call that really stops: no stop is cached and there is something to stop. */
  predicate Stops(s: Server) {
    s.stop.None? && s.state != Stopped
  }

  /** The first segment of `performStop`, up to and including the first await. */
  function DoStopCalled(s: Server, graceful: bool): Server {
    if s.stop.Some? then s
    else if s.state == Stopped then s.(stop := Some(StopSettled))
    else
      var duringStart := s.state == Starting;
      var moved := if s.state == Running then Transition(s, Draining)
                   else if duringStart then Transition(s, Stopping)
                   else s;
      var signalled := moved.(aborted := moved.aborted + if moved.startupController.Some? then {moved.startupController.value} else {});
      if signalled.state == Draining && graceful then signalled.(stop := Some(DrainingHandlers))
      else DoForce(signalled, duringStart)
  }

  /** The segment that ends draining and abandons what is left. */
  function DoForce(s: Server, duringStart: bool): Server {
    var stopping := if s.state == Draining then Transition(s, Stopping) else s;
    stopping.(stop := Some(if duringStart && stopping.startPromise.Some? then AwaitingStart else ClosingSessions))
  }

  function DoDriverStopped(s: Server, ok: bool): Server {
    var ended := if ok && s.state == Stopping then Transition(s, Stopped) else s;
    ended.(stop := Some(StopSettled))
  }

  function Step(s: Server, e: Event): Server
    requires Enabled(s, e)
  {
    match e
    case Bootstrap => DoBootstrap(s)
    case DriverStarted(id) => DoDriverStarted(s, id)
    case DriverStartFailed(id) => DoDriverStartFailed(s, id)
    case StartCleared(id) => DoStartCleared(s, id)
    case StopCalled(graceful) => DoStopCalled(s, graceful)
    case DrainEnded => DoForce(s, false)
    case StartAwaitEnded => s.(stop := Some(ClosingSessions))
    case SessionsClosed => s.(stop := Some(StoppingDriver))
    case DriverStopped(ok) => DoDriverStopped(s, ok)
    case StopCleared => s.(stop := None)
  }

  // ----- what every run keeps -----

  predicate StopInProgress(s: Server) {
    s.stop.Some? && !s.stop.value.StopSettled?
  }

  /** The event by which a suspended stop goes on. */
  function ResumeEvent(s: Server, driverStopped: bool): (e: Event)
    requires StopInProgress(s)
    ensures Enabled(s, e)
  {
    match s.stop.value
    case DrainingHandlers => DrainEnded
    case AwaitingStart => StartAwaitEnded
    case ClosingSessions => SessionsClosed
    case _ => DriverStopped(driverStopped)
  }

  /** At most one start exists, and it is the cached one. */
  ghost predicate OneStart(s: Server) {
    && s.startupController == s.startPromise
    && s.starts.Keys == (if s.startPromise.Some? then {s.startPromise.value} else {})
    && (s.startPromise.Some? ==> s.startPromise.value < s.nextStart)
    && (forall id :: id in s.aborted ==> id < s.nextStart)
  }

  /** The driver is being started on behalf of the server exactly while the server is starting. */
  ghost predicate StartMatchesState(s: Server) {
    && (s.state == Starting <==>
          && s.startPromise.Some?
          && s.startPromise.value in s.starts
          && s.starts[s.startPromise.value].DriverStarting?
          && s.startPromise.value !in s.aborted)
    && (s.state == Running || s.state == Draining ==>
          forall id :: id in s.starts ==> s.starts[id].StartSettled?)
  }

  ghost predicate StopMatchesState(s: Server) {
    && (s.state == Draining <==> s.stop == Some(DrainingHandlers))
    && (StopInProgress(s) && s.stop != Some(DrainingHandlers) ==> s.state == Stopping)
  }

  ghost predicate Inv(s: Server) {
    s.faults == 0 && OneStart(s) && StartMatchesState(s) && StopMatchesState(s)
  }

  lemma StepKeepsInv(s: Server, e: Event)
    requires Inv(s) && Enabled(s, e)
    ensures Inv(Step(s, e))
  {
    match e {
      case Bootstrap => StartKeepsInv(s, e);
      case DriverStarted(_) => StartKeepsInv(s, e);
      case DriverStartFailed(_) => StartKeepsInv(s, e);
      case StartCleared(_) => StartKeepsInv(s, e);
      case _ =>
    }
  }

  predicate OfStart(e: Event) {
    e.Bootstrap? || e.DriverStarted? || e.DriverStartFailed? || e.StartCleared?
  }

  lemma StartKeepsInv(s: Server, e: Event)
    requires Inv(s) && Enabled(s, e) && OfStart(e)
    ensures Inv(Step(s, e))
  {
    var s' := Step(s, e);
    match e {
      case StartCleared(id) =>
        assert s'.starts.Keys == {};
      case Bootstrap =>
        if Starts(s) {
          assert s'.starts.Keys == {s.nextStart};
        }
      case DriverStarted(id) =>
        assert s'.starts.Keys == s.starts.Keys;
      case DriverStartFailed(id) =>
        assert s'.starts.Keys == s.starts.Keys;
    }
  }

  function Run(events: seq<Event>): Option<Server> {
    if events == [] then Some(Initial())
    else
      var n := |events| - 1;
      match Run(events[..n])
      case None => None
      case Some(s) => if Enabled(s, events[n]) then Some(Step(s, events[n])) else None
  }

  /** In every run no transition is ever illegal, at most one driver start is unsettled, and the
      lifecycle state agrees with where the start and the stop are suspended. */
  lemma {:induction false} EveryRunIsLegal(events: seq<Event>)
    requires Run(events).Some?
    ensures Inv(Run(events).value)
    ensures Run(events).value.faults == 0 && |Run(events).value.starts| <= 1
  {
    if events == [] {
      assert Initial().starts.Keys == {};
    } else {
      var n := |events| - 1;
      EveryRunIsLegal(events[..n]);
      StepKeepsInv(Run(events[..n]).value, events[n]);
    }
    var s := Run(events).value;
    assert |s.starts| == |s.starts.Keys|;
  }

  /** A start that a stop has cancelled never makes the server run, however late its driver call
      succeeds; a start that was not cancelled always does. */
  lemma CancelledStartNeverRuns(s: Server, id: StartId)
    requires Inv(s) && Enabled(s, DriverStarted(id))
    ensures id in s.aborted ==> Step(s, DriverStarted(id)).state == s.state != Running
    ensures id !in s.aborted ==> Step(s, DriverStarted(id)).state == Running
  {
    assert id in s.starts.Keys;
  }

  /** The server begins to run by exactly one kind of step: the current start succeeds and no stop has
      cancelled it. */
  lemma RunsExactlyByItsStart(s: Server, e: Event)
    requires Inv(s) && Enabled(s, e) && s.state != Running
    ensures Step(s, e).state == Running <==>
            e.DriverStarted? && s.state == Starting && s.startPromise == Some(e.id) && e.id !in s.aborted
  {
    assert forall id :: id in s.starts ==> id in s.starts.Keys;
  }

  /** STARTING is entered by exactly one kind of step: a bootstrap of a stopped server with no start cached. */
  lemma StartingExactlyBy(s: Server, e: Event)
    requires Inv(s) && Enabled(s, e) && s.state != Starting
    ensures Step(s, e).state == Starting <==> e.Bootstrap? && s.state == Stopped && s.startPromise.None?
  {
  }

  /** DRAINING is entered by exactly one kind of step: a graceful stop of a running server with no stop
      cached. */
  lemma DrainingExactlyBy(s: Server, e: Event)
    requires Inv(s) && Enabled(s, e) && s.state != Draining
    ensures Step(s, e).state == Draining <==> e == StopCalled(true) && s.state == Running && s.stop.None?
  {
  }

  /** STOPPING is entered by exactly three kinds of steps: a stop of a starting server, a stop of a running
      server that is not graceful, and the end of a drain. */
  lemma StoppingExactlyBy(s: Server, e: Event)
    requires Inv(s) && Enabled(s, e) && s.state != Stopping
    ensures Step(s, e).state == Stopping <==>
            || (e.StopCalled? && s.state == Starting && s.stop.None?)
            || (e == StopCalled(false) && s.state == Running && s.stop.None?)
            || (e.DrainEnded? && s.state == Draining)
  {
    assert forall id :: id in s.starts ==> id in s.starts.Keys;
  }

  /** Where the first segment of a stop leaves the server, and what it waits for: the handlers, if it is
      graceful and the server was running; the start, if the server was starting; else the closes. It
      cancels whatever start is cached. */
  lemma StopBeginsBy(s: Server, graceful: bool)
    requires Inv(s) && s.state != Stopped && s.stop.None?
    ensures var t := Step(s, StopCalled(graceful));
            && t.state == (if s.state == Running && graceful then Draining else Stopping)
            && t.stop == Some(if s.state == Running && graceful then DrainingHandlers
                              else if s.state == Starting then AwaitingStart
                              else ClosingSessions)
            && (s.startPromise.Some? ==> s.startPromise.value in t.aborted)
  {
  }

  function Continue(s: Server, events: seq<Event>): Option<Server>
    decreases |events|
  {
    if events == [] then Some(s)
    else if Enabled(s, events[0]) then Continue(Step(s, events[0]), events[1..])
    else None
  }

  /** A cancelled start stays cancelled, and start ids are never reused. */
  lemma {:induction false} CancelledForGood(s: Server, events: seq<Event>)
    requires Continue(s, events).Some?
    ensures s.aborted <= Continue(s, events).value.aborted && s.nextStart <= Continue(s, events).value.nextStart
    decreases |events|
  {
    if events != [] {
      CancelledForGood(Step(s, events[0]), events[1..]);
    }
  }

  /** No start older than `n` can make the server run any more. */
  predicate OldStartsAreOver(s: Server, n: StartId) {
    && n <= s.nextStart
    && (s.state in {Stopping, Stopped} || (s.state == Starting && s.startPromise.Some? && n <= s.startPromise.value))
  }

  lemma {:induction false} OldStartsStayOver(s: Server, events: seq<Event>, n: StartId)
    requires Inv(s) && OldStartsAreOver(s, n)
    requires Continue(s, events).Some?
    requires forall i :: 0 <= i < |events| && events[i].DriverStarted? ==> events[i].id < n
    ensures Inv(Continue(s, events).value) && OldStartsAreOver(Continue(s, events).value, n)
    decreases |events|
  {
    if events != [] {
      StepKeepsInv(s, events[0]);
      if s.state != Running {
        RunsExactlyByItsStart(s, events[0]);
      }
      OldStartsStayOver(Step(s, events[0]), events[1..], n);
    }
  }

  /** Across every continuation, bootstraps included: after a stop that began during start-up, the server
      runs (or drains) again only if a start that began later has succeeded. The start that was under way
      never makes it run, however late its driver call succeeds. */
  lemma StopDuringStartStays(s: Server, events: seq<Event>)
    requires Inv(s) && s.state in {Stopping, Stopped}
    requires Continue(s, events).Some?
    ensures Continue(s, events).value.state in {Running, Draining} ==>
              exists i :: 0 <= i < |events| && events[i].DriverStarted? && s.nextStart <= events[i].id
  {
    if forall i :: 0 <= i < |events| && events[i].DriverStarted? ==> events[i].id < s.nextStart {
      OldStartsStayOver(s, events, s.nextStart);
    }
  }

  /** Without a bootstrap it does not even start. */
  lemma {:induction false} StopWithoutBootstrapStays(s: Server, events: seq<Event>)
    requires Inv(s) && s.state in {Stopping, Stopped}
    requires Continue(s, events).Some?
    requires forall i :: 0 <= i < |events| ==> !events[i].Bootstrap?
    ensures Inv(Continue(s, events).value)
    ensures Continue(s, events).value.state in {Stopping, Stopped}
    decreases |events|
  {
    if events != [] {
      StepKeepsInv(s, events[0]);
      var next := Step(s, events[0]);
      assert next.state in {Stopping, Stopped};
      StopWithoutBootstrapStays(next, events[1..]);
    }
  }

  /** The last segment of a stop leads to STOPPED when the driver stopped and to STOPPING when it did not. */
  lemma StopEndsWithTheDriver(s: Server, ok: bool)
    requires Inv(s) && Enabled(s, DriverStopped(ok))
    ensures Step(s, DriverStopped(ok)).state == if ok then Stopped else Stopping
  {
  }

  /** STOPPED is entered by exactly two kinds of steps: the driver stopped, or the start under way failed. */
  lemma StoppedExactlyBy(s: Server, e: Event)
    requires Inv(s) && Enabled(s, e) && s.state != Stopped
    ensures Step(s, e).state == Stopped <==>
            e == DriverStopped(true) || (e.DriverStartFailed? && s.state == Starting && s.startPromise == Some(e.id))
  {
    assert forall id :: id in s.starts ==> id in s.starts.Keys;
  }

  /** Across every continuation a stop under way is left only by a driver that stopped: failed driver
      stops, further stops, bootstraps and late starts all leave the server stopping. */
  lemma {:induction false} OnlyTheDriverEndsAStop(s: Server, events: seq<Event>)
    requires Inv(s) && s.state in {Draining, Stopping}
    requires Continue(s, events).Some?
    ensures Inv(Continue(s, events).value)
    ensures Continue(s, events).value.state !in {Draining, Stopping} ==> DriverStopped(true) in events
    decreases |events|
  {
    if events != [] {
      StepKeepsInv(s, events[0]);
      StoppedExactlyBy(s, events[0]);
      var next := Step(s, events[0]);
      assert events == [events[0]] + events[1..];
      if next.state in {Draining, Stopping} {
        OnlyTheDriverEndsAStop(next, events[1..]);
      } else {
        assert events[0] == DriverStopped(true);
        EveryContinuationIsLegal(next, events[1..]);
      }
    }
  }

  /** Across every continuation a draining server drains until the drain has ended: further stops, graceful
      or not, bootstraps and late starts change nothing; and then it is stopping. */
  lemma {:induction false} DrainsUntilItEnds(s: Server, events: seq<Event>)
    requires Inv(s) && s.state == Draining
    requires Continue(s, events).Some? && DrainEnded !in events
    ensures var t := Continue(s, events).value;
            && Inv(t) && t.state == Draining
            && Enabled(t, DrainEnded) && Step(t, DrainEnded).state == Stopping && Step(t, DrainEnded).stop == Some(ClosingSessions)
    decreases |events|
  {
    if events != [] {
      StepKeepsInv(s, events[0]);
      StoppedExactlyBy(s, events[0]);
      StoppingExactlyBy(s, events[0]);
      assert events == [events[0]] + events[1..];
      DrainsUntilItEnds(Step(s, events[0]), events[1..]);
    }
  }

  /** No stop ends before the sessions' closes have been awaited and the driver, after that, has stopped. */
  lemma {:induction false} SessionsCloseFirst(s: Server, events: seq<Event>)
    requires Inv(s) && StopInProgress(s) && s.stop != Some(StoppingDriver)
    requires Continue(s, events).Some? && Continue(s, events).value.state !in {Draining, Stopping}
    ensures exists i, j :: 0 <= i < j < |events| && events[i] == SessionsClosed && events[j] == DriverStopped(true)
    decreases |events|
  {
    if events != [] {
      StepKeepsInv(s, events[0]);
      StoppedExactlyBy(s, events[0]);
      var next := Step(s, events[0]);
      if events[0] == SessionsClosed {
        OnlyTheDriverEndsAStop(next, events[1..]);
        var j :| 0 <= j < |events| - 1 && events[1..][j] == DriverStopped(true);
        assert events[j + 1] == DriverStopped(true);
      } else {
        SessionsCloseFirst(next, events[1..]);
        var i, j :| 0 <= i < j < |events| - 1 && events[1..][i] == SessionsClosed && events[1..][j] == DriverStopped(true);
        assert events[i + 1] == SessionsClosed && events[j + 1] == DriverStopped(true);
      }
    }
  }

  lemma {:induction false} EveryContinuationIsLegal(s: Server, events: seq<Event>)
    requires Inv(s) && Continue(s, events).Some?
    ensures Inv(Continue(s, events).value)
    decreases |events|
  {
    if events != [] {
      StepKeepsInv(s, events[0]);
      EveryContinuationIsLegal(Step(s, events[0]), events[1..]);
    }
  }

  /** After a failed stop a retry reaches STOPPED as soon as the driver stops. */
  lemma FailedStopCanBeRetried(s: Server, graceful: bool)
    requires Inv(s) && Enabled(s, DriverStopped(false))
    ensures var retry := [DriverStopped(false), StopCleared, StopCalled(graceful), SessionsClosed, DriverStopped(true)];
            Continue(s, retry).Some? && Continue(s, retry).value.state == Stopped
  {
    var s1 := Step(s, DriverStopped(false));
    var s2 := Step(s1, StopCleared);
    var s3 := Step(s2, StopCalled(graceful));
    assert s3.stop == Some(ClosingSessions) && s3.state == Stopping;
    var s4 := Step(s3, SessionsClosed);
    var s5 := Step(s4, DriverStopped(true));
    assert Continue(s5, []) == Some(s5);
    assert Continue(s4, [DriverStopped(true)]) == Some(s5);
    assert [SessionsClosed, DriverStopped(true)][1..] == [DriverStopped(true)];
    assert Continue(s3, [SessionsClosed, DriverStopped(true)]) == Some(s5);
    assert [StopCalled(graceful), SessionsClosed, DriverStopped(true)][1..] == [SessionsClosed, DriverStopped(true)];
    assert Continue(s2, [StopCalled(graceful), SessionsClosed, DriverStopped(true)]) == Some(s5);
    assert [StopCleared, StopCalled(graceful), SessionsClosed, DriverStopped(true)][1..]
        == [StopCalled(graceful), SessionsClosed, DriverStopped(true)];
    assert Continue(s1, [StopCleared, StopCalled(graceful), SessionsClosed, DriverStopped(true)]) == Some(s5);
    assert [DriverStopped(false), StopCleared, StopCalled(graceful), SessionsClosed, DriverStopped(true)][1..]
        == [StopCleared, StopCalled(graceful), SessionsClosed, DriverStopped(true)];
  }

  /** A call to stop a starting or running server takes effect if and only if no earlier stop is
      still cached. The other case is reachable: see `AStopCanBeLost`. */
  lemma StopTakesEffectIff(s: Server, graceful: bool)
    requires Inv(s) && s.state in {Starting, Running}
    ensures Step(s, StopCalled(graceful)).state in {Draining, Stopping} <==> s.stop.None?
    ensures s.stop.Some? ==> Step(s, StopCalled(graceful)) == s
  {
  }

  /** Stopping a stopped server caches a settled promise for a moment; a bootstrap and a second stop
      inside that moment leave the server running. */
  lemma AStopCanBeLost()
    ensures var run := [StopCalled(true), Bootstrap, StopCalled(true), DriverStarted(0)];
            Run(run).Some? && Run(run).value.state == Running
  {
    var r1 := [StopCalled(true)];
    var r2 := r1 + [Bootstrap];
    var r3 := r2 + [StopCalled(true)];
    var r4 := r3 + [DriverStarted(0)];
    assert r1[..0] == [] && r2[..1] == r1 && r3[..2] == r2 && r4[..3] == r3;
    assert Run([]) == Some(Initial());
    assert Run(r1) == Some(Step(Initial(), StopCalled(true)));
    assert Run(r2).Some? && Run(r2).value.state == Starting;
    assert Run(r3) == Run(r2);
    assert r4 == [StopCalled(true), Bootstrap, StopCalled(true), DriverStarted(0)];
  }

  /** From a stopped server a bootstrap starts the driver if and only if no earlier start is still
      cached. The other case is reachable: the wait for a cancelled start can time out. */
  lemma BootstrapStartsIff(s: Server)
    requires Inv(s) && s.state == Stopped
    ensures Step(s, Bootstrap).state == Starting <==> s.startPromise.None?
    ensures s.startPromise.Some? ==> Step(s, Bootstrap) == s
  {
  }

  predicate Unsettled(s: Server, id: StartId) {
    id in s.starts && s.starts[id].DriverStarting?
  }

  predicate Settles(e: Event, id: StartId) {
    e == DriverStarted(id) || e == DriverStartFailed(id)
  }

  lemma SettlesByItsCall(s: Server, e: Event, id: StartId)
    requires Inv(s) && Enabled(s, e) && id < s.nextStart
    ensures id < Step(s, e).nextStart
    ensures Unsettled(Step(s, e), id) <==> Unsettled(s, id) && !Settles(e, id)
  {
  }

  /** Across every continuation a start stays unsettled exactly as long as its driver call does. */
  lemma {:induction false} UnsettledUntilItSettles(s: Server, events: seq<Event>, id: StartId)
    requires Inv(s) && Continue(s, events).Some? && id < s.nextStart
    ensures Unsettled(Continue(s, events).value, id) <==>
            Unsettled(s, id) && forall i :: 0 <= i < |events| ==> !Settles(events[i], id)
    decreases |events|
  {
    hide Inv, Step, Enabled, Unsettled, Settles;
    if events != [] {
      StepKeepsInv(s, events[0]);
      SettlesByItsCall(s, events[0], id);
      UnsettledUntilItSettles(Step(s, events[0]), events[1..], id);
      assert events == [events[0]] + events[1..];
      assert forall i :: 0 <= i < |events| - 1 ==> events[1..][i] == events[i + 1];
      assert (forall i :: 0 <= i < |events| ==> !Settles(events[i], id)) <==>
             !Settles(events[0], id) && forall i :: 0 <= i < |events| - 1 ==> !Settles(events[1..][i], id);
    }
  }

  /** A stop during start-up waits for the start; the wait has to end, by itself or by its timeout, before
      the driver can be stopped. */
  lemma {:induction false} TheWaitEndsFirst(s: Server, events: seq<Event>)
    requires Inv(s) && s.stop == Some(AwaitingStart)
    requires Continue(s, events).Some? && Continue(s, events).value.state !in {Draining, Stopping}
    ensures exists i, j :: 0 <= i < j < |events| && events[i] == StartAwaitEnded && events[j] == DriverStopped(true)
    decreases |events|
  {
    if events != [] {
      StepKeepsInv(s, events[0]);
      StoppedExactlyBy(s, events[0]);
      var next := Step(s, events[0]);
      if events[0] == StartAwaitEnded {
        OnlyTheDriverEndsAStop(next, events[1..]);
        var j :| 0 <= j < |events| - 1 && events[1..][j] == DriverStopped(true);
        assert events[j + 1] == DriverStopped(true);
      } else {
        TheWaitEndsFirst(next, events[1..]);
        var i, j :| 0 <= i < j < |events| - 1 && events[1..][i] == StartAwaitEnded && events[1..][j] == DriverStopped(true);
        assert events[i + 1] == StartAwaitEnded && events[j + 1] == DriverStopped(true);
      }
    }
  }

  /** A stop of a starting server that has reached STOPPED, whatever happened meanwhile, leaves that start
      unsettled if and only if its driver call has neither succeeded nor failed since: the wait for it
      timed out, and the driver was stopped, before it settled. */
  lemma StopLeavesAStartIff(s: Server, graceful: bool, events: seq<Event>)
    requires Inv(s) && s.state == Starting && s.stop.None? && s.startPromise.Some?
    requires Continue(Step(s, StopCalled(graceful)), events).Some?
    requires Continue(Step(s, StopCalled(graceful)), events).value.state == Stopped
    ensures Unsettled(Continue(Step(s, StopCalled(graceful)), events).value, s.startPromise.value) <==>
            forall i :: 0 <= i < |events| ==> !Settles(events[i], s.startPromise.value)
    ensures exists i, j :: 0 <= i < j < |events| && events[i] == StartAwaitEnded && events[j] == DriverStopped(true)
  {
    StepKeepsInv(s, StopCalled(graceful));
    UnsettledUntilItSettles(Step(s, StopCalled(graceful)), events, s.startPromise.value);
    TheWaitEndsFirst(Step(s, StopCalled(graceful)), events);
  }

  lemma AStartCanOutliveTheStop()
    ensures var run := [Bootstrap, StopCalled(true), StartAwaitEnded, SessionsClosed, DriverStopped(true)];
            && Run(run).Some?
            && Run(run).value.state == Stopped
            && Run(run).value.starts == map[0 := DriverStarting]
  {
    var r1 := [Bootstrap];
    var r2 := r1 + [StopCalled(true)];
    var r3 := r2 + [StartAwaitEnded];
    var r4 := r3 + [SessionsClosed];
    var r5 := r4 + [DriverStopped(true)];
    assert r1[..0] == [] && r2[..1] == r1 && r3[..2] == r2 && r4[..3] == r3 && r5[..4] == r4;
    assert Run([]) == Some(Initial());
    assert Run(r1) == Some(Step(Initial(), Bootstrap));
    assert Run(r2).Some? && Run(r2).value.stop == Some(AwaitingStart);
    assert Run(r3).Some? && Run(r3).value.stop == Some(ClosingSessions);
    assert Run(r4).Some? && Run(r4).value.stop == Some(StoppingDriver);
    assert r5 == [Bootstrap, StopCalled(true), StartAwaitEnded, SessionsClosed, DriverStopped(true)];
  }
}

module ServerControls {
  import opened Wrappers
  import opened Lifecycles
  import S = Servers

  /** The part of the runtime that starts and stops. */
  class ServerControl {
    const lifecycle: WebTransportLifecycle
    var startPromise: Option<S.StartId>
    var startupController: Option<S.StartId>
    var starts: map<S.StartId, S.StartPhase>
    var nextStart: S.StartId
    var aborted: set<S.StartId>
    var stopPromise: Option<S.StopPhase>

    ghost function State(): S.Server
      reads this, lifecycle
    {
      S.Server(lifecycle.state, startPromise, startupController, starts, nextStart, aborted, stopPromise, 0)
    }

    ghost predicate Valid()
      reads this, lifecycle
    {
      S.Inv(State())
    }

    constructor ()
      ensures Valid() && fresh(lifecycle) && State() == S.Initial()
    {
      lifecycle := new WebTransportLifecycle(Stopped);
      startPromise, startupController, starts, nextStart := None, None, map[], 0;
      aborted, stopPromise := {}, None;
    }

    method OnApplicationBootstrap()
      requires Valid()
      modifies this, lifecycle
      ensures Valid()
      ensures State() == S.Step(old(State()), S.Bootstrap)
    {
      S.StepKeepsInv(State(), S.Bootstrap);
      if startPromise.Some? || lifecycle.state != Stopped {
        return;
      }
      var ok := lifecycle.Transition(Starting);
      var id := nextStart;
      nextStart := nextStart + 1;
      startupController := Some(id);
      starts := starts[id := S.DriverStarting];
      startPromise := Some(id);
    }

    /** The driver's start promise settles. */
    method ResumeStart(id: S.StartId, success: bool)
      requires Valid() && id in starts && starts[id].DriverStarting?
      modifies this, lifecycle
      ensures Valid()
      ensures State() == S.Step(old(State()), if success then S.DriverStarted(id) else S.DriverStartFailed(id))
    {
      S.StepKeepsInv(State(), if success then S.DriverStarted(id) else S.DriverStartFailed(id));
      starts := starts[id := S.StartSettled];
      if startupController == Some(id) && lifecycle.state == Starting {
        if success {
          var ok := lifecycle.Transition(Running);
        } else {
          var stopping := lifecycle.Transition(Stopping);
          var stopped := lifecycle.Transition(Stopped);
        }
      }
    }

    method ClearStart(id: S.StartId)
      requires Valid() && id in starts && starts[id].StartSettled?
      modifies this
      ensures Valid()
      ensures State() == S.Step(old(State()), S.StartCleared(id))
    {
      S.StepKeepsInv(State(), S.StartCleared(id));
      starts := starts - {id};
      if startPromise == Some(id) {
        startPromise := None;
      }
      if startupController == Some(id) {
        startupController := None;
      }
    }

    method Stop(graceful: bool)
      requires Valid()
      modifies this, lifecycle
      ensures Valid()
      ensures State() == S.Step(old(State()), S.StopCalled(graceful))
    {
      S.StepKeepsInv(State(), S.StopCalled(graceful));
      if stopPromise.Some? {
        return;
      }
      if lifecycle.state == Stopped {
        stopPromise := Some(S.StopSettled);
        return;
      }
      var duringStart := lifecycle.state == Starting;
      if lifecycle.state == Running {
        var ok := lifecycle.Transition(Draining);
      } else if duringStart {
        var ok := lifecycle.Transition(Stopping);
      }
      if startupController.Some? {
        aborted := aborted + {startupController.value};
      }
      if lifecycle.state == Draining && graceful {
        stopPromise := Some(S.DrainingHandlers);
      } else {
        Force(duringStart);
      }
    }

    method Force(duringStart: bool)
      modifies this`stopPromise, lifecycle
      ensures State() == S.DoForce(old(State()), duringStart)
    {
      if lifecycle.state == Draining {
        var ok := lifecycle.Transition(Stopping);
      }
      stopPromise := Some(if duringStart && startPromise.Some? then S.AwaitingStart else S.ClosingSessions);
    }

    /** A later segment of `performStop` resumes: draining, the start, the closes or the driver. */
    method ResumeStop(driverStopped: bool)
      requires Valid() && S.StopInProgress(State())
      modifies this, lifecycle
      ensures Valid()
      ensures State() == S.Step(old(State()), S.ResumeEvent(old(State()), driverStopped))
    {
      S.StepKeepsInv(State(), S.ResumeEvent(State(), driverStopped));
      match stopPromise.value {
        case DrainingHandlers => Force(false);
        case AwaitingStart => stopPromise := Some(S.ClosingSessions);
        case ClosingSessions => stopPromise := Some(S.StoppingDriver);
        case StoppingDriver =>
          if driverStopped && lifecycle.state == Stopping {
            var ok := lifecycle.Transition(Stopped);
          }
          stopPromise := Some(S.StopSettled);
        case StopSettled =>
      }
    }

    method ClearStop()
      requires Valid() && stopPromise == Some(S.StopSettled)
      modifies this
      ensures Valid()
      ensures State() == S.Step(old(State()), S.StopCleared)
    {
      S.StepKeepsInv(State(), S.StopCleared);
      stopPromise := None;
    }
  }
}
