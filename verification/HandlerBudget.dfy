/**
  The server-wide handler budget (packages/nest-webtransport/src/server/handler-budget.ts).

  `Budgets` is the specification and what every run keeps; `HandlerBudgets` is the object.
  A caller of `run` is a value `W` that enters once; its promise settling is `Leave`.
*/
module Budgets {
  import opened Wrappers

  datatype Limits = Limits(concurrency: nat, pending: nat)

  datatype Entry = Granted | Waits | Refused

  datatype Budget<W(==)> = Budget(reserved: nat, running: nat, waiters: seq<W>) {
    predicate CanReserve(limits: Limits) {
      reserved < limits.concurrency + limits.pending
    }

    /** Running calls never exceed the limit, and a call waits only while the limit is reached. */
    predicate Bounded(limits: Limits) {
      && running <= limits.concurrency
      && (waiters != [] ==> running == limits.concurrency)
    }

    function Entering(limits: Limits, aborted: bool): Entry {
      if aborted then Refused
      else if running < limits.concurrency && waiters == [] then Granted
      else Waits
    }

    function Enter(limits: Limits, w: W, aborted: bool): Budget<W> {
      match Entering(limits, aborted)
      case Refused => this
      case Granted => this.(running := running + 1)
      case Waits => this.(waiters := waiters + [w])
    }

    /** Grants the oldest waiters while there is room. */
    function Wake(limits: Limits): Budget<W> {
      if running < limits.concurrency then
        var k := Min(|waiters|, limits.concurrency - running);
        this.(running := running + k, waiters := waiters[k..])
      else this
    }

    /** A granted call settles. */
    function Leave(limits: Limits): Budget<W>
      requires 0 < running
    {
      this.(running := running - 1).Wake(limits)
    }

    function Abandon(limits: Limits, w: W): Budget<W> {
      if w in waiters then this.(waiters := Remove(waiters, w)).Wake(limits) else this
    }
  }

  function Min(a: nat, b: nat): nat {
    if a <= b then a else b
  }

  /** `s` without its first occurrence of `w`. */
  function Remove<W(==)>(s: seq<W>, w: W): (r: seq<W>)
    ensures w !in s ==> r == s
    ensures w in s ==> |r| == |s| - 1
    ensures forall x :: x in r ==> x in s
    ensures forall x :: x in s && x != w ==> x in r
  {
    if s == [] then []
    else if s[0] == w then s[1..]
    else
      assert s == [s[0]] + s[1..];
      [s[0]] + Remove(s[1..], w)
  }

  predicate Distinct<W(==)>(s: seq<W>) {
    forall i, j :: 0 <= i < j < |s| ==> s[i] != s[j]
  }

  lemma {:induction false} RemoveKeepsDistinct<W>(s: seq<W>, w: W)
    requires Distinct(s)
    ensures Distinct(Remove(s, w)) && w !in Remove(s, w)
  {
    if s != [] && s[0] != w {
      RemoveKeepsDistinct(s[1..], w);
      assert s[0] !in s[1..];
    }
  }

  lemma AppendKeepsDistinct<W>(s: seq<W>, w: W)
    requires Distinct(s) && w !in s
    ensures Distinct(s + [w])
  {
  }

  /** From a bounded state a departure hands its place to exactly the oldest waiter; nothing else moves. */
  lemma LeaveGrantsTheOldest<W>(b: Budget<W>, limits: Limits)
    requires b.Bounded(limits) && 0 < b.running
    ensures b.Leave(limits) ==
            if b.waiters == [] then b.(running := b.running - 1) else b.(waiters := b.waiters[1..])
    ensures b.Leave(limits).Bounded(limits)
  {
  }

  /** From a bounded state an aborted waiter just goes: the wake-up it triggers grants nobody. */
  lemma AbandonGrantsNobody<W>(b: Budget<W>, limits: Limits, w: W)
    requires b.Bounded(limits)
    ensures b.Abandon(limits, w) == b.(waiters := Remove(b.waiters, w))
    ensures b.Abandon(limits, w).Bounded(limits)
  {
  }

  // ----- runs -----

  datatype Event<W> =
    | Entered(w: W, aborted: bool)
    | Aborted(w: W)
    | Left

  /** The budget with every call that joined (granted at once or queued), every grant, in order,
      and the calls whose wait was aborted. */
  datatype Log<W> = Log(budget: Budget<W>, joined: seq<W>, granted: seq<W>, gone: set<W>)

  predicate Enabled<W(==)>(l: Log<W>, e: Event<W>) {
    match e
    case Entered(w, _) => w !in l.joined
    case Aborted(w) => w in l.budget.waiters
    case Left => 0 < l.budget.running
  }

  function Step<W>(l: Log<W>, limits: Limits, e: Event<W>): Log<W>
    requires Enabled(l, e)
  {
    match e
    case Entered(w, aborted) =>
      var entry := l.budget.Entering(limits, aborted);
      Log(l.budget.Enter(limits, w, aborted),
          if entry.Refused? then l.joined else l.joined + [w],
          if entry.Granted? then l.granted + [w] else l.granted,
          l.gone)
    case Aborted(w) =>
      var b := l.budget.(waiters := Remove(l.budget.waiters, w));
      l.(budget := b.Wake(limits), granted := l.granted + NewlyGranted(b, limits), gone := l.gone + {w})
    case Left =>
      var b := l.budget.(running := l.budget.running - 1);
      l.(budget := b.Wake(limits), granted := l.granted + NewlyGranted(b, limits))
  }

  /** Who `Wake` grants, in the order it grants them. */
  function NewlyGranted<W>(b: Budget<W>, limits: Limits): seq<W> {
    b.waiters[..|b.waiters| - |b.Wake(limits).waiters|]
  }

  function Without<W>(s: seq<W>, gone: set<W>): (r: seq<W>) {
    if s == [] then []
    else Without(s[..|s| - 1], gone) + if s[|s| - 1] in gone then [] else [s[|s| - 1]]
  }

  /** Grants so far, followed by the queue, are exactly the arrivals that did not give up, in
      arrival order; and the counters are bounded. */
  ghost predicate Fair<W>(l: Log<W>, limits: Limits) {
    && l.budget.Bounded(limits)
    && Distinct(l.joined)
    && (forall w :: w in l.gone ==> w in l.joined)
    && l.granted + l.budget.waiters == Without(l.joined, l.gone)
  }

  function Run<W>(limits: Limits, events: seq<Event<W>>): (r: Option<Log<W>>) {
    if events == [] then Some(Log(Budget(0, 0, []), [], [], {}))
    else
      var n := |events| - 1;
      match Run(limits, events[..n])
      case None => None
      case Some(l) => if Enabled(l, events[n]) then Some(Step(l, limits, events[n])) else None
  }

  lemma {:induction false} EveryRunIsFair<W>(limits: Limits, events: seq<Event<W>>)
    requires Run(limits, events).Some?
    ensures Fair(Run(limits, events).value, limits)
  {
    if events != [] {
      var n := |events| - 1;
      EveryRunIsFair(limits, events[..n]);
      StepKeepsFair(Run(limits, events[..n]).value, limits, events[n]);
    }
  }

  lemma StepKeepsFair<W>(l: Log<W>, limits: Limits, e: Event<W>)
    requires Fair(l, limits) && Enabled(l, e)
    ensures Fair(Step(l, limits, e), limits)
  {
    match e {
      case Entered(w, aborted) => EnterKeepsFair(l, limits, w, aborted);
      case Aborted(w) => AbortKeepsFair(l, limits, w);
      case Left => LeaveKeepsFair(l, limits);
    }
  }

  lemma EnterKeepsFair<W>(l: Log<W>, limits: Limits, w: W, aborted: bool)
    requires Fair(l, limits) && w !in l.joined
    ensures Fair(Step(l, limits, Entered(w, aborted)), limits)
  {
    var l' := Step(l, limits, Entered(w, aborted));
    if !l.budget.Entering(limits, aborted).Refused? {
      assert l'.joined[..|l'.joined| - 1] == l.joined;
      assert w !in l.gone;
      assert l'.granted + l'.budget.waiters == l.granted + l.budget.waiters + [w];
    }
  }

  lemma LeaveKeepsFair<W>(l: Log<W>, limits: Limits)
    requires Fair(l, limits) && 0 < l.budget.running
    ensures Fair(Step(l, limits, Left), limits)
  {
    LeaveGrantsTheOldest(l.budget, limits);
    var l' := Step(l, limits, Left);
    assert l'.granted + l'.budget.waiters == l.granted + l.budget.waiters;
  }

  lemma AbortKeepsFair<W>(l: Log<W>, limits: Limits, w: W)
    requires Fair(l, limits) && w in l.budget.waiters
    ensures Fair(Step(l, limits, Aborted(w)), limits)
  {
    var l' := Step(l, limits, Aborted(w));
    AbandonGrantsNobody(l.budget, limits, w);
    assert NewlyGranted(l.budget.(waiters := Remove(l.budget.waiters, w)), limits) == [];
    assert l'.granted == l.granted;
    var all := l.granted + l.budget.waiters;
    assert all[|l.granted|..] == l.budget.waiters;
    WithoutIsPart(l.joined, l.gone);
    assert w in all;
    WithoutOneMore(l.joined, l.gone, w);
    RemoveFromTail(l.granted, l.budget.waiters, w);
  }

  lemma {:induction false} WithoutIsPart<W>(s: seq<W>, gone: set<W>)
    requires Distinct(s)
    ensures Distinct(Without(s, gone))
    ensures forall x :: x in Without(s, gone) <==> x in s && x !in gone
  {
    if s != [] {
      var n := |s| - 1;
      WithoutIsPart(s[..n], gone);
      assert s == s[..n] + [s[n]];
      assert s[n] !in s[..n];
    }
  }

  lemma {:induction false} WithoutOneMore<W>(s: seq<W>, gone: set<W>, w: W)
    requires Distinct(s)
    ensures Without(s, gone + {w}) == Remove(Without(s, gone), w)
  {
    if s != [] {
      var n := |s| - 1;
      WithoutOneMore(s[..n], gone, w);
      WithoutIsPart(s[..n], gone);
      assert s[n] !in s[..n];
      if s[n] in gone {
        assert Without(s, gone) == Without(s[..n], gone);
      } else {
        RemoveFromAppended(Without(s[..n], gone), s[n], w);
        assert s[n] == w ==> w !in Without(s[..n], gone);
      }
    }
  }

  lemma {:induction false} RemoveFromAppended<W>(s: seq<W>, x: W, w: W)
    requires x !in s
    ensures Remove(s + [x], w) == if x == w then s else Remove(s, w) + [x]
  {
    if s != [] {
      assert (s + [x])[1..] == s[1..] + [x];
      assert s == [s[0]] + s[1..];
      if s[0] != w {
        RemoveFromAppended(s[1..], x, w);
      }
    }
  }

  lemma {:induction false} RemoveFromTail<W>(front: seq<W>, tail: seq<W>, w: W)
    requires Distinct(front + tail) && w in tail
    ensures Remove(front + tail, w) == front + Remove(tail, w)
  {
    if front == [] {
      assert front + tail == tail;
    } else {
      var all := front + tail;
      assert all[1..] == front[1..] + tail;
      var j :| 0 <= j < |tail| && tail[j] == w;
      assert all[|front| + j] == w && all[0] == front[0];
      RemoveFromTail(front[1..], tail, w);
    }
  }
}

module HandlerBudgets {
  import opened Wrappers
  import B = Budgets

  type Permit = nat

  class HandlerBudget<W(==)> {
    const limits: B.Limits
    var reserved: nat
    var running: nat
    /** A JavaScript Set of grant closures, in insertion order. */
    var waiters: seq<W>
    /** Release closures handed out and not called yet. */
    var unreleased: set<Permit>
    var nextPermit: Permit

    ghost function State(): B.Budget<W>
      reads this
    {
      B.Budget(reserved, running, waiters)
    }

    ghost predicate Valid()
      reads this
    {
      && State().Bounded(limits)
      && reserved == |unreleased| <= limits.concurrency + limits.pending
      && forall p :: p in unreleased ==> p < nextPermit
    }

    constructor (limits: B.Limits)
      ensures Valid() && this.limits == limits
      ensures State() == B.Budget(0, 0, []) && unreleased == {}
    {
      this.limits := limits;
      reserved, running, waiters, unreleased, nextPermit := 0, 0, [], {}, 0;
    }

    /** Takes a place in the whole system, or says there is none. */
    method Reserve() returns (permit: Option<Permit>)
      requires Valid()
      modifies this
      ensures Valid()
      ensures permit.Some? <==> |old(unreleased)| < limits.concurrency + limits.pending
      ensures permit.Some? <==> old(State()).CanReserve(limits)
      ensures permit.None? ==> unchanged(this)
      ensures permit.Some? ==>
        && permit.value !in old(unreleased)
        && unreleased == old(unreleased) + {permit.value}
        && State() == old(State()).(reserved := old(reserved) + 1)
    {
      if reserved >= limits.concurrency + limits.pending {
        return None;
      }
      reserved := reserved + 1;
      unreleased := unreleased + {nextPermit};
      permit := Some(nextPermit);
      nextPermit := nextPermit + 1;
    }

    /** Calling a release closure twice gives the place back once. */
    method Release(permit: Permit)
      requires Valid()
      modifies this
      ensures Valid()
      ensures unreleased == old(unreleased) - {permit}
      ensures State() == if permit in old(unreleased) then old(State()).(reserved := old(reserved) - 1) else old(State())
    {
      if permit !in unreleased {
        return;
      }
      unreleased := unreleased - {permit};
      reserved := reserved - 1;
    }

    method Acquire(w: W, aborted: bool) returns (entry: B.Entry)
      requires Valid()
      modifies this`running, this`waiters
      ensures Valid()
      ensures entry == old(State()).Entering(limits, aborted)
      ensures State() == old(State()).Enter(limits, w, aborted)
    {
      if aborted {
        return B.Refused;
      }
      if running < limits.concurrency && |waiters| == 0 {
        running := running + 1;
        return B.Granted;
      }
      waiters := waiters + [w];
      return B.Waits;
    }

    /** The abort listener of a call that is still waiting. */
    method AbortWaiter(w: W)
      requires Valid() && w in waiters
      modifies this`running, this`waiters
      ensures Valid()
      ensures State() == old(State()).Abandon(limits, w)
      ensures running == old(running)
    {
      B.AbandonGrantsNobody(State(), limits, w);
      waiters := B.Remove(waiters, w);
      var nobody := Wake();
    }

    /** The `finally` of a granted call. */
    method Leave() returns (granted: seq<W>)
      requires Valid() && 0 < running
      modifies this`running, this`waiters
      ensures Valid()
      ensures State() == old(State()).Leave(limits)
      ensures granted == if old(waiters) == [] then [] else [old(waiters)[0]]
    {
      B.LeaveGrantsTheOldest(State(), limits);
      running := running - 1;
      granted := Wake();
    }

    /** Grants in insertion order while there is room. */
    method Wake() returns (granted: seq<W>)
      modifies this`running, this`waiters
      ensures State() == old(State()).Wake(limits)
      ensures granted + waiters == old(waiters)
    {
      granted := [];
      while |waiters| != 0
        invariant granted + waiters == old(waiters)
        invariant running == old(running) + |granted|
        invariant granted == [] || running <= limits.concurrency
        decreases |waiters|
      {
        if running >= limits.concurrency {
          break;
        }
        granted := granted + [waiters[0]];
        waiters := waiters[1..];
        running := running + 1;
      }
    }
  }
}
