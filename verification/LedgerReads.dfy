/**
  What becomes of what the pumps read (packages/nest-webtransport/src/server/webtransport-runtime.ts:570-587,
  709-831, 860-1000, 1201-1216): exactly which datagrams are dropped, and for what; how many of a session
  enter its queue in any second; and exactly which streams are taken on, and when a pump starts.
*/
module LedgerReads {
  import opened Wrappers
  import opened Lifecycles
  import opened Pools
  import opened Ledgers
  import opened LedgerInvariant
  import opened LedgerSteps
  import opened LedgerEnds
  import opened LedgerRuns
  import opened LedgerTheorems
  import opened LedgerProgress
  import opened LedgerAdmission
  import opened LedgerWork
  import opened LedgerDrains
  import F = Feeds
  import IP = Slots
  import Q = Queues
  import Srv = Servers
  import T = Tasks
  import W = Windows

  // ----- one datagram -----

  predicate TooLarge(cfg: Config, arrival: Arrival) {
    arrival.size > cfg.maxDatagramSize || arrival.size > arrival.transportMax
  }

  /** The session's second is not over, and it has used up what it may take in it. */
  predicate RateSpent(m: Session, cfg: Config, arrival: Arrival) {
    arrival.now - m.meter.startedAt < 1000.0 && cfg.maxDatagramsPerSecond <= m.meter.used
  }

  /** The server has room for the bytes, those that a full drop-oldest queue would give back included. */
  predicate ByteRoom(s: State, cfg: Config, m: Session, size: nat) {
    var back := if |m.feed.queue| == cfg.queueSize && cfg.queueOverflow.DropOldest? && m.feed.queue != []
                then m.feed.queue[0].size else 0;
    s.queuedBytes - back + size <= cfg.maxQueuedBytes
  }

  /** The datagram is counted as read and dropped, and nothing else happens: neither to the queue nor to any
      byte counter, and to the meter only what it says. */
  ghost predicate OnlyCounted(s: State, h: Handle, meter: W.Meter, t: State)
    requires h in s.sessions
  {
    var m := s.sessions[h];
    t == Put(s, h, m.(meter := meter, feed := m.feed.(read := m.feed.read + 1, dropped := m.feed.dropped + 1)))
  }

  /** The queue, its counters and the server's after the datagram has been offered to the queue. */
  ghost predicate WasOffered(s: State, cfg: Config, h: Handle, size: nat, t: State)
    requires h in s.sessions && h in t.sessions
  {
    var f, f' := s.sessions[h].feed, t.sessions[h].feed;
    var d := F.Datagram(f.read, size);
    && f'.read == f.read + 1 && f'.submitted == f.submitted && f'.cleared == f.cleared
    && t.queuedBytes - s.queuedBytes == f'.bytes - f.bytes
    && (if |f.queue| < cfg.queueSize then
          f'.queue == f.queue + [d] && f'.dropped == f.dropped && f'.bytes == f.bytes + size
        else if cfg.queueOverflow.DropOldest? then
          f.queue != [] && [f.queue[0]] + f'.queue == f.queue + [d] && f'.dropped == f.dropped + 1
          && f'.bytes == f.bytes + size - f.queue[0].size
        else f'.queue == f.queue && f'.dropped == f.dropped + 1 && f'.bytes == f.bytes)
  }

  /** What the meter is after a read: untouched by a datagram that is too large or over the rate, one more in
      the second that is open, or the first in a new one. */
  function NextMeter(m: Session, cfg: Config, arrival: Arrival): W.Meter {
    if TooLarge(cfg, arrival) || RateSpent(m, cfg, arrival) then m.meter
    else if arrival.now - m.meter.startedAt < 1000.0 then m.meter.(used := m.meter.used + 1)
    else W.Meter(arrival.now, 1)
  }

  /** A reading session drops a datagram outright exactly if it is too large, over the rate, or has no byte
      room; any other one is offered to the queue, which has the last word only if it is full. */
  ghost predicate ReadRight(s: State, cfg: Config, h: Handle, arrival: Arrival, t: State)
    requires h in s.sessions
  {
    var m := s.sessions[h];
    && h in t.sessions && t.sessions[h].meter == NextMeter(m, cfg, arrival)
    && if TooLarge(cfg, arrival) || RateSpent(m, cfg, arrival) || !ByteRoom(s, cfg, m, arrival.size)
       then OnlyCounted(s, h, NextMeter(m, cfg, arrival), t)
       else WasOffered(s, cfg, h, arrival.size, t)
  }

  lemma MeteredExactly(m: Session, cfg: Config, arrival: Arrival)
    requires cfg.Valid()
    ensures var (metered, inRate) := Metered(m, cfg, arrival);
            && metered == m.(meter := NextMeter(m, cfg, arrival))
            && (inRate <==> !TooLarge(cfg, arrival) && !RateSpent(m, cfg, arrival))
            && (arrival.Fits(cfg) <==> !TooLarge(cfg, arrival))
  {
  }

  lemma OfferedRight(s: State, cfg: Config, h: Handle, size: nat)
    requires h in s.sessions && 1 <= cfg.queueSize && |s.sessions[h].feed.queue| <= cfg.queueSize
    ensures var m := s.sessions[h];
            var feed := F.Offered(m.feed, cfg.queueSize, cfg.queueOverflow, size, m.Waits(cfg.tasks));
            var pumps := if feed.drain.NotDraining? then m.pumps else m.pumps + {DrainPump};
            var t := Put(s, h, m.(feed := feed, pumps := pumps))
                       .(queuedBytes := s.queuedBytes + F.OfferedBytes(m.feed, cfg.queueSize, cfg.queueOverflow, size));
            WasOffered(s, cfg, h, size, t)
  {
    Q.EnqueuesByPolicy(s.sessions[h].feed.queue, cfg.queueSize, cfg.queueOverflow, F.Datagram(s.sessions[h].feed.read, size));
    hide Q.Enqueue;
  }

  lemma ReceivesRight(s: State, cfg: Config, h: Handle, arrival: Arrival, inRate: bool)
    requires h in s.sessions && 1 <= cfg.queueSize && |s.sessions[h].feed.queue| <= cfg.queueSize
    ensures var t := Receive(s, cfg, h, arrival, inRate);
            && h in t.sessions
            && if !arrival.Fits(cfg) || !inRate || !ByteRoom(s, cfg, s.sessions[h], arrival.size)
               then OnlyCounted(s, h, s.sessions[h].meter, t)
               else WasOffered(s, cfg, h, arrival.size, t) && t.sessions[h].meter == s.sessions[h].meter
  {
    OfferedRight(s, cfg, h, arrival.size);
    hide F.Offered, F.OfferedBytes, Arrival.Fits, WasOffered;
  }

  lemma ReadsRight(s: State, cfg: Config, h: Handle, arrival: Arrival)
    requires cfg.Valid() && h in s.sessions && s.sessions[h].Reading() && |s.sessions[h].feed.queue| <= cfg.queueSize
    ensures ReadRight(s, cfg, h, arrival, ReadDatagram(s, cfg, h, arrival))
  {
    hide Metered, Receive, TooLarge, RateSpent, NextMeter, Arrival.Fits, WasOffered;
    var m := s.sessions[h].(meter := NextMeter(s.sessions[h], cfg, arrival));
    MeteredExactly(s.sessions[h], cfg, arrival);
    ReceivesRight(Put(s, h, m), cfg, h, arrival, !TooLarge(cfg, arrival) && !RateSpent(s.sessions[h], cfg, arrival));
    OfferedFrom(s, Put(s, h, m), cfg, h, arrival.size, ReadDatagram(s, cfg, h, arrival));
  }

  lemma OfferedFrom(s: State, u: State, cfg: Config, h: Handle, size: nat, t: State)
    requires h in s.sessions && h in u.sessions && h in t.sessions
    requires u.sessions[h].feed == s.sessions[h].feed && u.queuedBytes == s.queuedBytes
    ensures WasOffered(u, cfg, h, size, t) <==> WasOffered(s, cfg, h, size, t)
  {
  }

  /** In every run, of every value a reading session's pump reads: exactly the datagrams that are too large
      for the session, over its rate, or without byte room in the server are dropped outright, which changes
      only two counts; any other enters a queue that is not full, and in a full one replaces the oldest or is
      dropped, as the policy says. */
  lemma DatagramsAreReadExactly(cfg: Config, states: seq<State>, events: seq<Event>, i: nat)
    requires IsRun(cfg, states, events) && i < |events| && events[i].DatagramRead?
    ensures var s, h := states[i], events[i].h;
            && h in s.sessions
            && if !s.sessions[h].signalAborted && !s.sessions[h].intakeAborted then ReadRight(s, cfg, h, events[i].arrival, states[i + 1])
               else states[i + 1] == Put(s, h, s.sessions[h].(pumps := s.sessions[h].pumps - {DatagramPump}))
  {
    hide IsRun, ReadRight;
    RunLength(cfg, states, events);
    RunEnables(cfg, states, events, i);
    if states[i].sessions[events[i].h].Reading() {
      ReadsRight(states[i], cfg, events[i].h, events[i].arrival);
      hide ReadDatagram;
    }
  }

  // ----- what other steps do to a session's queue and meter -----

  /** No pump but the drain loop starts. */
  ghost predicate NoPumpStarts(m: Session, m': Session) {
    m'.pumps <= m.pumps + {DrainPump} && m'.admitted == m.admitted
  }

  /** Nothing is read: the meter and the counts stand still, and the queue only loses. */
  ghost predicate NothingRead(s: State, t: State, h: Handle)
    requires h in s.sessions
  {
    && h in t.sessions && NoPumpStarts(s.sessions[h], t.sessions[h]) && t.sessions[h].meter == s.sessions[h].meter
    && t.sessions[h].feed.read == s.sessions[h].feed.read && t.sessions[h].feed.dropped == s.sessions[h].feed.dropped
    && |t.sessions[h].feed.queue| <= |s.sessions[h].feed.queue|
    && forall d :: d in t.sessions[h].feed.queue ==> d in s.sessions[h].feed.queue
  }

  ghost predicate SameFeed(s: State, t: State, h: Handle)
    requires h in s.sessions
  {
    && h in t.sessions && NoPumpStarts(s.sessions[h], t.sessions[h]) && t.sessions[h].meter == s.sessions[h].meter
    && t.sessions[h].feed.(drain := s.sessions[h].feed.drain) == s.sessions[h].feed
  }

  lemma SameIsNotRead(s: State, t: State, h: Handle)
    requires h in s.sessions && SameFeed(s, t, h)
    ensures NothingRead(s, t, h)
  {
    assert t.sessions[h].feed.queue == s.sessions[h].feed.queue;
  }

  lemma SubmitSameFeed(s: State, cfg: Config, k: Handle, bytes: nat, h: Handle)
    requires k in s.sessions && h in s.sessions
    ensures SameFeed(s, Submit(s, cfg, k, bytes), h)
  {
    hide Charge, Settle, Refuse;
  }

  lemma AcceptSameFeed(s: State, cfg: Config, k: Handle, o: Offer, h: Handle)
    requires k !in s.sessions && h in s.sessions
    ensures SameFeed(s, Accept(s, cfg, k, o), h)
  {
    hide Accept;
    AcceptKeepsOthers(s, cfg, k, o);
  }

  lemma ReadOtherSameFeed(s: State, cfg: Config, k: Handle, arrival: Arrival, h: Handle)
    requires k in s.sessions && 1 <= cfg.queueSize && |s.sessions[k].feed.queue| <= cfg.queueSize
    requires h in s.sessions && h != k
    ensures SameFeed(s, ReadDatagram(s, cfg, k, arrival), h)
  {
    hide F.Judge, F.Offered, F.OfferedBytes, Metered;
  }

  lemma DrainLoopSameFeed(m: Session, cfg: Config)
    ensures DrainLoop(m, cfg).meter == m.meter == EndDrain(m).meter
    ensures DrainLoop(m, cfg).feed.(drain := m.feed.drain) == m.feed == EndDrain(m).feed.(drain := m.feed.drain)
    ensures NoPumpStarts(m, DrainLoop(m, cfg)) && NoPumpStarts(m, EndDrain(m))
  {
  }

  lemma ResumeTakesOnly(s: State, cfg: Config, k: Handle, h: Handle)
    requires k in s.sessions && h in s.sessions
    ensures NothingRead(s, ResumeDrain(s, cfg, k), h)
  {
    hide Submit, DrainLoop, EndDrain;
    var m := s.sessions[k];
    DrainLoopSameFeed(m, cfg);
    if m.feed.queue != [] {
      var t := Put(s, k, m.(feed := F.Taken(m.feed)));
      SubmitSameFeed(t, cfg, k, m.feed.queue[0].size, h);
      SameIsNotRead(t, Submit(t, cfg, k, m.feed.queue[0].size), h);
    }
  }

  lemma ReadStreamSameFeed(s: State, cfg: Config, k: Handle, kind: StreamKind, id: StreamId, aborted: bool, h: Handle)
    requires k in s.sessions && h in s.sessions
    ensures SameFeed(s, ReadStream(s, cfg, k, kind, id, aborted), h)
  {
    hide Submit;
    SubmitSameFeed(if aborted then s else Track(s, k, kind, id), cfg, k, 0, h);
  }

  lemma FinalizeReadsNothing(s: State, cfg: Config, k: Handle, h: Handle)
    requires k in s.sessions && h in s.sessions
    ensures NothingRead(s, Finalize(s, cfg, k), h)
  {
    hide AbandonSession, SettleAll, BytesOf;
  }

  lemma ForceReadsNothing(s: State, cfg: Config, k: Handle, h: Handle)
    requires k in s.sessions && h in s.sessions
    ensures NothingRead(s, Force(s, cfg, k), h)
  {
    hide AbandonSession, SettleAll, BytesOf;
  }

  lemma ReleaseSameFeed(s: State, k: Handle, h: Handle)
    requires k in s.sessions && h in s.sessions
    ensures SameFeed(s, ReleaseAll(s, k), h)
  {
    hide StreamsOf;
  }

  lemma AbortReadsNothing(s: State, cfg: Config, k: Handle, h: Handle)
    requires k in s.sessions && h in s.sessions
    ensures NothingRead(s, AbortSignal(s, cfg, k), h)
  {
    hide Finalize, ReleaseAll;
    AbortIsMarked(s, cfg, k);
    FinalizeReadsNothing(Marked(s, k), cfg, k, h);
    ReleaseSameFeed(Finalize(Marked(s, k), cfg, k), k, h);
  }

  lemma {:induction false} StopIntakeAllReadsNothing(s: State, order: seq<Handle>, h: Handle)
    requires h in s.sessions
    ensures NothingRead(s, StopIntakeAll(s, order), h)
    decreases |order|
  {
    if order != [] {
      StopIntakeAllReadsNothing(if order[0] in s.sessions then StopIntake(s, order[0]) else s, order[1..], h);
    }
  }

  lemma {:induction false} ForceAllReadsNothing(s: State, cfg: Config, order: seq<Handle>, h: Handle)
    requires h in s.sessions
    ensures NothingRead(s, ForceAll(s, cfg, order), h)
    decreases |order|
  {
    hide Force;
    if order != [] {
      var t := s;
      if order[0] in s.sessions {
        ForceReadsNothing(s, cfg, order[0], h);
        t := Force(s, cfg, order[0]);
      }
      ForceAllReadsNothing(t, cfg, order[1..], h);
    }
  }

  lemma {:induction false} FinalizeAllReadsNothing(s: State, cfg: Config, order: seq<Handle>, h: Handle)
    requires h in s.sessions
    ensures NothingRead(s, FinalizeAll(s, cfg, order), h)
    decreases |order|
  {
    hide Finalize;
    if order != [] {
      var t := s;
      if order[0] in s.sessions {
        FinalizeReadsNothing(s, cfg, order[0], h);
        t := Finalize(s, cfg, order[0]);
      }
      FinalizeAllReadsNothing(t, cfg, order[1..], h);
    }
  }

  lemma ServerReadsNothing(s: State, cfg: Config, e: Srv.Event, order: seq<Handle>, h: Handle)
    requires Srv.Enabled(s.server, e) && h in s.sessions
    ensures NothingRead(s, MoveServer(s, cfg, e, order), h)
  {
    hide StopIntakeAll, ForceAll, FinalizeAll, Srv.Step;
    match e {
      case StopCalled(_) =>
        var t := StopIntakeAll(s, order);
        StopIntakeAllReadsNothing(s, order, h);
        ForceAllReadsNothing(t, cfg, order, h);
      case DrainEnded => ForceAllReadsNothing(s, cfg, order, h);
      case DriverStopped(_) => FinalizeAllReadsNothing(s, cfg, order, h);
      case _ =>
    }
  }

  predicate Concludes(e: Event, h: Handle) {
    e.AdmissionConcluded? && e.h == h
  }

  /** Events that only rewrite records or move work. */
  predicate Aside(e: Event) {
    e.AdmissionTimedOut? || e.AdmissionConcluded? || e.DrainContinued? || e.StreamEnded? || e.PumpEnded? || e.TaskBegan?
    || e.CallReturned? || e.TaskSettled? || e.AdmissionWorkSettled? || e.Observed? || e.Retired?
  }

  lemma FreedSameFeed(m: Session, cfg: Config)
    requires 0 < m.tasks.active
    ensures Freed(m, cfg).meter == m.meter && Freed(m, cfg).feed.(drain := m.feed.drain) == m.feed && NoPumpStarts(m, Freed(m, cfg))
  {
  }

  lemma ObserveSameFeed(m: Session, what: Observation)
    requires m.retirement.Some?
    ensures Observe(m, what).meter == m.meter && Observe(m, what).feed == m.feed && NoPumpStarts(m, Observe(m, what))
  {
  }

  lemma AsideSameFeed(s: State, cfg: Config, e: Event, h: Handle)
    requires cfg.Valid() && Enabled(s, cfg, e) && Aside(e) && h in s.sessions && !Concludes(e, h)
    ensures SameFeed(s, Step(s, cfg, e), h)
  {
    hide AbandonSession, Enter, Leave, Settle, Start, IP.Release, Session.Waits, T.Core.HasCapacity, DrainLoop, Freed, Observe;
    if e.DrainContinued? {
      DrainLoopSameFeed(s.sessions[e.h], cfg);
    } else if e.TaskSettled? {
      FreedSameFeed(s.sessions[s.pool.work[e.w].session], cfg);
    } else if e.Observed? {
      ObserveSameFeed(s.sessions[e.h], e.what);
    }
  }

  lemma OthersReadNothing(s: State, cfg: Config, e: Event, h: Handle)
    requires cfg.Valid() && Enabled(s, cfg, e) && h in s.sessions && !(e.DatagramRead? && e.h == h) && !Concludes(e, h)
    ensures NothingRead(s, Step(s, cfg, e), h)
  {
    hide NothingRead, SameFeed;
    if Aside(e) {
      AsideSameFeed(s, cfg, e, h);
      SameIsNotRead(s, Step(s, cfg, e), h);
    } else {
      hide Accept, AbortSignal, MoveServer, ReadDatagram, ResumeDrain, ReadStream, Srv.Enabled, Walks;
      match e {
        case Offered(k, offer) =>
          AcceptSameFeed(s, cfg, k, offer, h);
          SameIsNotRead(s, Step(s, cfg, e), h);
        case DatagramRead(k, arrival) =>
          ReadOtherSameFeed(s, cfg, k, arrival, h);
          SameIsNotRead(s, Step(s, cfg, e), h);
        case DrainResumed(k) => ResumeTakesOnly(s, cfg, k, h);
        case StreamRead(k, kind, id, aborted) =>
          ReadStreamSameFeed(s, cfg, k, kind, id, aborted, h);
          SameIsNotRead(s, Step(s, cfg, e), h);
        case SignalAborted(k) => AbortReadsNothing(s, cfg, k, h);
        case ServerMoved(move, order) => ServerReadsNothing(s, cfg, move, order, h);
      }
    }
  }

  /** The admission has succeeded: the pumps start if and only if nothing has stopped the session and the
      server runs. */
  lemma ConcludeReadsNothing(s: State, cfg: Config, e: Event)
    requires cfg.Valid() && Enabled(s, cfg, e) && e.AdmissionConcluded?
    ensures var t, h := Step(s, cfg, e), e.h; var m := s.sessions[h];
            && h in s.sessions && h in t.sessions
            && t.sessions[h].meter == m.meter && t.sessions[h].feed == m.feed && t.sessions[h].admitted
            && t.sessions[h].pumps == (if !m.signalAborted && !m.intakeAborted && s.server.state == ServerState.Running
                                       then m.pumps + e.pumps else m.pumps)
  {
  }

  // ----- the size limit -----

  ghost predicate AllFit(s: State, cfg: Config) {
    forall h, d :: h in s.sessions && d in s.sessions[h].feed.queue ==> d.size <= cfg.maxDatagramSize
  }

  lemma ReadFits(s: State, cfg: Config, h: Handle, arrival: Arrival, d: F.Datagram)
    requires cfg.Valid() && h in s.sessions && |s.sessions[h].feed.queue| <= cfg.queueSize
    ensures var t := ReadDatagram(s, cfg, h, arrival);
            h in t.sessions &&
            (d in t.sessions[h].feed.queue ==>
               || d in s.sessions[h].feed.queue
               || (d == F.Datagram(s.sessions[h].feed.read, arrival.size) && !TooLarge(cfg, arrival)
                   && s.sessions[h].Reading() && !RateSpent(s.sessions[h], cfg, arrival)))
  {
    hide TooLarge, RateSpent, ByteRoom, WasOffered;
    if s.sessions[h].Reading() {
      ReadsRight(s, cfg, h, arrival);
      hide ReadDatagram;
      if d in ReadDatagram(s, cfg, h, arrival).sessions[h].feed.queue && WasOffered(s, cfg, h, arrival.size, ReadDatagram(s, cfg, h, arrival)) {
        OfferedQueue(s, cfg, h, arrival.size, ReadDatagram(s, cfg, h, arrival), d);
      }
    }
  }

  lemma OfferedQueue(s: State, cfg: Config, h: Handle, size: nat, t: State, d: F.Datagram)
    requires h in s.sessions && h in t.sessions && WasOffered(s, cfg, h, size, t) && d in t.sessions[h].feed.queue
    ensures d in s.sessions[h].feed.queue || d == F.Datagram(s.sessions[h].feed.read, size)
  {
    var f, f' := s.sessions[h].feed, t.sessions[h].feed;
    var j :| 0 <= j < |f'.queue| && f'.queue[j] == d;
    if cfg.queueSize <= |f.queue| && cfg.queueOverflow.DropOldest? {
      assert ([f.queue[0]] + f'.queue)[j + 1] == d;
    }
  }

  lemma StepKeepsFits(s: State, cfg: Config, e: Event)
    requires cfg.Valid() && Accounted(s, cfg) && Enabled(s, cfg, e) && AllFit(s, cfg)
    ensures AllFit(Step(s, cfg, e), cfg)
  {
    hide Accounted;
    var t := Step(s, cfg, e);
    forall h, d | h in t.sessions && d in t.sessions[h].feed.queue
      ensures d.size <= cfg.maxDatagramSize
    {
      if h !in s.sessions {
        NewcomersHaveReadNothing(s, cfg, e, h);
      } else if e.DatagramRead? && e.h == h {
        ReadFits(s, cfg, h, e.arrival, d);
      } else if !Concludes(e, h) {
        OthersReadNothing(s, cfg, e, h);
      }
      hide Step, Enabled;
    }
  }

  lemma NewcomersHaveReadNothing(s: State, cfg: Config, e: Event, h: Handle)
    requires cfg.Valid() && Accounted(s, cfg) && Enabled(s, cfg, e) && h !in s.sessions && h in Step(s, cfg, e).sessions
    ensures e.Offered? && e.h == h
    ensures var m := Step(s, cfg, e).sessions[h]; m.feed.queue == [] && m.feed.read == 0 && m.meter == W.Meter(e.offer.openedAt, 0)
  {
    StepKeepsHandles(s, cfg, e);
    hide Accounted, Accept, Enabled;
    AcceptsFresh(s, cfg, h, e.offer);
  }

  lemma AcceptsFresh(s: State, cfg: Config, h: Handle, o: Offer)
    requires h !in s.sessions && h in Accept(s, cfg, h, o).sessions
    ensures var m := Accept(s, cfg, h, o).sessions[h]; m.feed.queue == [] && m.feed.read == 0 && m.meter == W.Meter(o.openedAt, 0)
  {
    hide IP.Acquire, IP.Release, Bounced, Charge, Enter, Finalize;
    if Judge(s, cfg, o).Admitted? && o.aborted {
      var t := Added(s, cfg, h, o).(pool := Bounced(s.pool, h), sessions := s.sessions[h := NewSession(o)]);
      AcceptIsFinalize(s, cfg, h, o, t);
      FinalizeReadsNothing(t, cfg, h, h);
    }
  }

  /** In every state of every run, no datagram over the size limit is queued; and each was within what its
      transport allowed when it was read, or it would have been dropped: see `DatagramsAreReadExactly`. */
  lemma {:induction false} EveryQueuedDatagramFits(cfg: Config, states: seq<State>, events: seq<Event>, k: nat)
    requires IsRun(cfg, states, events) && k < |states|
    ensures forall h, d :: h in states[k].sessions && d in states[k].sessions[h].feed.queue ==> d.size <= cfg.maxDatagramSize
  {
    hide IsRun, Accounted, Step, Enabled;
    RunLength(cfg, states, events);
    if k == 0 {
      RunStartsUnread(cfg, states, events);
    } else {
      EveryQueuedDatagramFits(cfg, states, events, k - 1);
      EveryRunIsAccounted(cfg, states, events, k - 1);
      RunEnables(cfg, states, events, k - 1);
      StepKeepsFits(states[k - 1], cfg, events[k - 1]);
    }
  }

  lemma RunStartsUnread(cfg: Config, states: seq<State>, events: seq<Event>)
    requires IsRun(cfg, states, events)
    ensures states[0].sessions == map[]
  {
    hide Step, Enabled;
  }

  // ----- the rate, over a run -----

  /** When a datagram of the session entered its queue in this step, if one did: the datagram that bears the
      number next to be read is in the queue afterwards. */
  function EntryOf(s: State, e: Event, t: State, h: Handle): seq<W.Grant> {
    if e.DatagramRead? && e.h == h && h in s.sessions && h in t.sessions
       && F.Datagram(s.sessions[h].feed.read, e.arrival.size) in t.sessions[h].feed.queue
    then [W.Grant(e.arrival.now, 1)] else []
  }

  /** When the session's meter was asked and granted. */
  function GrantOf(s: State, cfg: Config, e: Event, h: Handle): seq<W.Grant> {
    if e.DatagramRead? && e.h == h && h in s.sessions && s.sessions[h].Reading()
       && !TooLarge(cfg, e.arrival) && !RateSpent(s.sessions[h], cfg, e.arrival)
    then [W.Grant(e.arrival.now, 1)] else []
  }

  /** The readings of the session's clock: one when it is made, and one whenever its meter is asked. */
  function ClockOf(s: State, cfg: Config, e: Event, t: State, h: Handle): seq<real> {
    if e.Offered? && e.h == h && h in t.sessions then [e.offer.openedAt]
    else if e.DatagramRead? && e.h == h && h in s.sessions && s.sessions[h].Reading() && !TooLarge(cfg, e.arrival)
    then [e.arrival.now] else []
  }

  function Entries(states: seq<State>, events: seq<Event>, k: nat, h: Handle): seq<W.Grant>
    requires k <= |events| && k < |states|
  {
    if k == 0 then [] else Entries(states, events, k - 1, h) + EntryOf(states[k - 1], events[k - 1], states[k], h)
  }

  function Grants(cfg: Config, states: seq<State>, events: seq<Event>, k: nat, h: Handle): seq<W.Grant>
    requires k <= |events| && k < |states|
  {
    if k == 0 then [] else Grants(cfg, states, events, k - 1, h) + GrantOf(states[k - 1], cfg, events[k - 1], h)
  }

  function Clock(cfg: Config, states: seq<State>, events: seq<Event>, k: nat, h: Handle): seq<real>
    requires k <= |events| && k < |states|
  {
    if k == 0 then []
    else Clock(cfg, states, events, k - 1, h) + ClockOf(states[k - 1], cfg, events[k - 1], states[k], h)
  }

  ghost predicate Forwards(s: seq<real>) {
    forall i, j :: 0 <= i <= j < |s| ==> s[i] <= s[j]
  }

  /** The session's meter says the truth about everything it has granted. */
  ghost predicate MeterHonest(m: Session, cfg: Config, grants: seq<W.Grant>, now: real) {
    W.Honest(W.Metered(m.meter, grants).AsLog(), cfg.DatagramRate(), now)
  }

  lemma ReadKeepsHonest(s: State, cfg: Config, h: Handle, arrival: Arrival, grants: seq<W.Grant>, before: real)
    requires cfg.Valid() && h in s.sessions && s.sessions[h].Reading() && |s.sessions[h].feed.queue| <= cfg.queueSize
    requires MeterHonest(s.sessions[h], cfg, grants, before)
    requires !TooLarge(cfg, arrival) ==> before <= arrival.now
    ensures var t := ReadDatagram(s, cfg, h, arrival);
            && h in t.sessions
            && MeterHonest(t.sessions[h], cfg, grants + GrantOf(s, cfg, DatagramRead(h, arrival), h),
                           if TooLarge(cfg, arrival) then before else arrival.now)
  {
    hide W.Honest;
    ReadsRight(s, cfg, h, arrival);
    hide ReadDatagram, OnlyCounted, WasOffered, ByteRoom;
    var m := s.sessions[h];
    assert grants + [] == grants;
    if !TooLarge(cfg, arrival) {
      W.AskKeepsHonest(W.Metered(m.meter, grants), cfg.DatagramRate(), before, arrival.now);
    }
  }

  lemma {:induction false} EveryMeterIsHonest(cfg: Config, states: seq<State>, events: seq<Event>, k: nat, h: Handle, now: real)
    requires IsRun(cfg, states, events) && k < |states| && |states| == |events| + 1
    requires Forwards(Clock(cfg, states, events, k, h) + [now])
    ensures h in states[k].sessions ==> MeterHonest(states[k].sessions[h], cfg, Grants(cfg, states, events, k, h), now)
    ensures h !in states[k].sessions ==> Grants(cfg, states, events, k, h) == []
  {
    hide IsRun, Accounted, Step, Enabled, MeterHonest, ClockOf, GrantOf, Forwards;
    RunLength(cfg, states, events);
    if k == 0 {
      RunStartsUnread(cfg, states, events);
    } else {
      var s, e, t := states[k - 1], events[k - 1], states[k];
      var clock, last := Clock(cfg, states, events, k - 1, h), ClockOf(s, cfg, e, t, h);
      ClockIsShort(s, cfg, e, t, h);
      var before := if last == [] then now else last[0];
      ForwardParts(clock, last, now);
      EveryMeterIsHonest(cfg, states, events, k - 1, h, before);
      EveryRunIsAccounted(cfg, states, events, k - 1);
      RunEnables(cfg, states, events, k - 1);
      MeterStep(s, cfg, e, h, Grants(cfg, states, events, k - 1, h), now);
    }
  }

  lemma ClockIsShort(s: State, cfg: Config, e: Event, t: State, h: Handle)
    ensures |ClockOf(s, cfg, e, t, h)| <= 1
  {
  }

  lemma ForwardParts(clock: seq<real>, last: seq<real>, now: real)
    requires Forwards(clock + last + [now]) && |last| <= 1
    ensures Forwards(clock + [if last == [] then now else last[0]])
    ensures last != [] ==> last[0] <= now
  {
    var all := clock + last + [now];
    if last == [] {
      assert all == clock + [now];
    } else {
      assert clock + [last[0]] == all[..|clock| + 1];
      assert all[|clock|] <= all[|clock| + 1];
    }
  }

  lemma MeterStep(s: State, cfg: Config, e: Event, h: Handle, grants: seq<W.Grant>, now: real)
    requires cfg.Valid() && Accounted(s, cfg) && Enabled(s, cfg, e)
    requires var last := ClockOf(s, cfg, e, Step(s, cfg, e), h);
             && (last != [] ==> last[0] <= now)
             && (h in s.sessions ==> MeterHonest(s.sessions[h], cfg, grants, if last == [] then now else last[0]))
    requires h !in s.sessions ==> grants == []
    ensures var t := Step(s, cfg, e); var after := grants + GrantOf(s, cfg, e, h);
            && (h in t.sessions ==> MeterHonest(t.sessions[h], cfg, after, now))
            && (h !in t.sessions ==> after == [])
  {
    hide Accounted, Step, Enabled, MeterHonest;
    if h !in s.sessions {
      assert grants + GrantOf(s, cfg, e, h) == [];
      if h in Step(s, cfg, e).sessions {
        NewcomersHaveReadNothing(s, cfg, e, h);
        NewMeterIsHonest(Step(s, cfg, e).sessions[h], cfg, e.offer.openedAt, now);
      }
    } else if e.DatagramRead? && e.h == h {
      ReadIsEnabled(s, cfg, e);
      MeterRead(s, cfg, h, e.arrival, grants, now);
    } else {
      if Concludes(e, h) {
        ConcludeReadsNothing(s, cfg, e);
      } else {
        OthersReadNothing(s, cfg, e, h);
      }
      OfferedIsNew(s, cfg, e, h);
      assert grants + GrantOf(s, cfg, e, h) == grants;
      SameMeterIsHonest(s.sessions[h], Step(s, cfg, e).sessions[h], cfg, grants, now);
    }
  }

  lemma NewMeterIsHonest(m: Session, cfg: Config, openedAt: real, now: real)
    requires cfg.Valid() && m.meter == W.Meter(openedAt, 0) && openedAt <= now
    ensures MeterHonest(m, cfg, [], now)
  {
    hide W.Honest;
    W.OpenIsHonest(cfg.DatagramRate(), Some(openedAt), now);
  }

  lemma SameMeterIsHonest(m: Session, m': Session, cfg: Config, grants: seq<W.Grant>, now: real)
    requires m'.meter == m.meter
    ensures MeterHonest(m', cfg, grants, now) == MeterHonest(m, cfg, grants, now)
  {
    hide W.Honest;
  }

  lemma ReadIsEnabled(s: State, cfg: Config, e: Event)
    requires cfg.Valid() && Enabled(s, cfg, e) && e.DatagramRead?
    ensures e.h in s.sessions && |s.sessions[e.h].feed.queue| <= cfg.queueSize
    ensures Step(s, cfg, e) == ReadDatagram(s, cfg, e.h, e.arrival)
  {
    hide ReadDatagram;
  }

  lemma OfferedIsNew(s: State, cfg: Config, e: Event, h: Handle)
    requires Enabled(s, cfg, e) && h in s.sessions
    ensures !(e.Offered? && e.h == h)
  {
  }

  lemma MeterRead(s: State, cfg: Config, h: Handle, arrival: Arrival, grants: seq<W.Grant>, now: real)
    requires cfg.Valid() && h in s.sessions && |s.sessions[h].feed.queue| <= cfg.queueSize
    requires var asked := s.sessions[h].Reading() && !TooLarge(cfg, arrival);
             && (asked ==> arrival.now <= now)
             && MeterHonest(s.sessions[h], cfg, grants, if asked then arrival.now else now)
    ensures var t := ReadDatagram(s, cfg, h, arrival);
            h in t.sessions && MeterHonest(t.sessions[h], cfg, grants + GrantOf(s, cfg, DatagramRead(h, arrival), h), now)
  {
    hide W.Honest;
    if s.sessions[h].Reading() {
      hide ReadDatagram;
      var asked := !TooLarge(cfg, arrival);
      ReadKeepsHonest(s, cfg, h, arrival, grants, if asked then arrival.now else now);
      if asked {
        W.HonestLater(W.Metered(ReadDatagram(s, cfg, h, arrival).sessions[h].meter,
                                grants + GrantOf(s, cfg, DatagramRead(h, arrival), h)).AsLog(),
                      cfg.DatagramRate(), arrival.now, now);
      }
    } else {
      assert grants + GrantOf(s, cfg, DatagramRead(h, arrival), h) == grants;
    }
  }

  /** Whatever enters the queue was granted. */
  lemma EntryIsGranted(s: State, cfg: Config, e: Event, h: Handle)
    requires cfg.Valid() && Accounted(s, cfg) && Enabled(s, cfg, e)
    ensures EntryOf(s, e, Step(s, cfg, e), h) != [] ==> EntryOf(s, e, Step(s, cfg, e), h) == GrantOf(s, cfg, e, h)
  {
    hide Accounted;
    if e.DatagramRead? && e.h == h {
      ReadFits(s, cfg, h, e.arrival, F.Datagram(s.sessions[h].feed.read, e.arrival.size));
      SessionIsOk(s, cfg, h);
      UnreadIsNotQueued(s.sessions[h], cfg, e.arrival.size);
      hide ReadDatagram, SessionOk;
    }
  }

  lemma UnreadIsNotQueued(m: Session, cfg: Config, size: nat)
    requires SessionOk(m, cfg)
    ensures F.Datagram(m.feed.read, size) !in m.feed.queue
  {
    hide F.Size, F.Increasing, RetirementOk;
    forall j | 0 <= j < |m.feed.queue|
      ensures m.feed.queue[j].number < m.feed.read
    {
      assert (m.feed.submitted + F.Numbers(m.feed.queue))[|m.feed.submitted| + j] == m.feed.queue[j].number;
    }
  }

  lemma BetweenMore(a: seq<W.Grant>, b: seq<W.Grant>, from: real, to: real)
    requires |b| <= 1
    ensures W.Between(a + b, from, to) == W.Between(a, from, to) + W.Between(b, from, to)
  {
    if b == [] {
      assert a + b == a;
    } else {
      assert (a + b)[..|a|] == a && b[..0] == [];
    }
  }

  lemma {:induction false} EntriesAreGranted(cfg: Config, states: seq<State>, events: seq<Event>, k: nat, h: Handle, from: real, to: real)
    requires IsRun(cfg, states, events) && k < |states| && |states| == |events| + 1
    ensures W.Between(Entries(states, events, k, h), from, to) <= W.Between(Grants(cfg, states, events, k, h), from, to)
  {
    hide IsRun, Accounted, Step, Enabled, EntryOf, GrantOf, W.Between;
    if k == 0 {
    } else {
      var s, e := states[k - 1], events[k - 1];
      RunLength(cfg, states, events);
      EntriesAreGranted(cfg, states, events, k - 1, h, from, to);
      EveryRunIsAccounted(cfg, states, events, k - 1);
      RunEnables(cfg, states, events, k - 1);
      EntryIsGranted(s, cfg, e, h);
      OneAtMost(s, cfg, e, states[k], h);
      BetweenMore(Entries(states, events, k - 1, h), EntryOf(s, e, states[k], h), from, to);
      BetweenMore(Grants(cfg, states, events, k - 1, h), GrantOf(s, cfg, e, h), from, to);
      W.NothingBetween(from, to);
    }
  }

  lemma OneAtMost(s: State, cfg: Config, e: Event, t: State, h: Handle)
    ensures |EntryOf(s, e, t, h)| <= 1 && |GrantOf(s, cfg, e, h)| <= 1
  {
  }

  /** In every run, of any one session whose clock does not run backwards, whatever its queue does and
      however often it is drained: at most twice `maxDatagramsPerSecond` datagrams enter the queue in any
      half-open second. */
  lemma EntriesAreBounded(cfg: Config, states: seq<State>, events: seq<Event>, k: nat, h: Handle, from: real)
    requires IsRun(cfg, states, events) && k < |states| && |states| == |events| + 1
    requires Forwards(Clock(cfg, states, events, k, h))
    ensures W.Between(Entries(states, events, k, h), from, from + 1000.0) <= 2 * cfg.maxDatagramsPerSecond
  {
    hide IsRun, Step, Enabled, W.Between;
    var clock := Clock(cfg, states, events, k, h);
    var now := if clock == [] then 0.0 else clock[|clock| - 1];
    EveryMeterIsHonest(cfg, states, events, k, h, now);
    EntriesAreGranted(cfg, states, events, k, h, from, from + 1000.0);
    if h in states[k].sessions {
      assert W.Span(Grants(cfg, states, events, k, h), cfg.DatagramRate(), from) <= 2 * cfg.maxDatagramsPerSecond;
    } else {
      W.NothingBetween(from, from + 1000.0);
    }
  }

  // ----- draining -----

  /** A loop that has been woken takes the oldest datagram if its session's scheduler has room and one is
      queued, and submits it with its bytes; what is submitted and not taken is given back. */
  ghost predicate Drained(s: State, cfg: Config, h: Handle, t: State)
    requires h in s.sessions
  {
    var m := s.sessions[h];
    var room := m.tasks.accepting && m.tasks.active + |m.tasks.pending| < cfg.tasks.maxConcurrent + cfg.tasks.maxPending;
    && h in t.sessions
    && if room && m.feed.queue != [] then
         var f := t.sessions[h].feed; var d := m.feed.queue[0];
         && [d] + f.queue == m.feed.queue && f.submitted == m.feed.submitted + [d.number] && f.bytes == m.feed.bytes - d.size
         && f.drain.AwaitingOutcome?
         && var u := Put(s, h, m.(feed := f));
            if RoomForTask(s, cfg, h) then Taken(u, cfg, h, d.size, t) else GivenBack(u, d.size, t)
       else
         && t.pool == s.pool && t.queuedBytes == s.queuedBytes && t.sessions[h].feed.queue == m.feed.queue
         && t.sessions[h].tasks == m.tasks
         && (t.sessions[h].feed.drain.NotDraining? <==> m.feed.queue == [] || m.signalAborted || m.intakeAborted)
  }

  lemma ResumesRight(s: State, cfg: Config, h: Handle)
    requires cfg.Valid() && Accounted(s, cfg) && h in s.sessions && s.sessions[h].feed.drain.Resuming?
    ensures Drained(s, cfg, h, ResumeDrain(s, cfg, h))
  {
    hide Accounted, Submit, Taken, GivenBack, SessionOk;
    var m := s.sessions[h];
    SessionIsOk(s, cfg, h);
    OpenIsReading(m, cfg);
    if m.tasks.HasCapacity(cfg.tasks) && m.feed.queue != [] {
      var u := Put(s, h, m.(feed := F.Taken(m.feed)));
      AdmissionIsWork(s, cfg, h);
      PoolIsOk(s, cfg);
      SubmitTakesFrom(s, u, cfg, h, m.feed.queue[0].size);
      SubmitSameFeed(u, cfg, h, m.feed.queue[0].size, h);
      SubmitSameDrain(u, cfg, h, m.feed.queue[0].size, h);
      assert [m.feed.queue[0]] + m.feed.queue[1..] == m.feed.queue;
    }
  }

  lemma OpenIsReading(m: Session, cfg: Config)
    requires SessionOk(m, cfg)
    ensures m.tasks.accepting <==> !m.intakeAborted
    ensures m.signalAborted ==> m.intakeAborted
    ensures m.intakeAborted ==> m.feed.queue == []
  {
    hide F.Ok, RetirementOk;
  }

  /** `SubmitTakes`, where only the session's feed has moved since the accounts were kept. */
  lemma SubmitTakesFrom(s: State, u: State, cfg: Config, h: Handle, bytes: nat)
    requires Accounted(s, cfg) && h in s.sessions && h in u.sessions
    requires u.pool == s.pool && u.sessions[h].tasks == s.sessions[h].tasks
    ensures RoomForTask(u, cfg, h) == RoomForTask(s, cfg, h)
    ensures RoomForTask(s, cfg, h) ==> Taken(u, cfg, h, bytes, Submit(u, cfg, h, bytes))
    ensures !RoomForTask(s, cfg, h) ==> GivenBack(u, bytes, Submit(u, cfg, h, bytes))
  {
    hide Accounted;
    PoolIsOk(s, cfg);
    AdmissionIsWork(s, cfg, h);
    SubmitTakesIn(u, cfg, h, bytes);
  }

  lemma DrainsExactly(cfg: Config, states: seq<State>, events: seq<Event>, i: nat)
    requires IsRun(cfg, states, events) && i < |events| && events[i].DrainResumed?
    ensures events[i].h in states[i].sessions && Drained(states[i], cfg, events[i].h, states[i + 1])
  {
    hide IsRun, Accounted, ResumeDrain, Drained;
    RunLength(cfg, states, events);
    RunEnables(cfg, states, events, i);
    EveryRunIsAccounted(cfg, states, events, i);
    ResumesRight(states[i], cfg, events[i].h);
  }

  // ----- streams -----

  /** A stream read by a reading session is turned away exactly if the server or the session has as many
      streams as it may; any other is tracked, unless it has ended already, and submitted. */
  ghost predicate StreamRight(s: State, cfg: Config, h: Handle, kind: StreamKind, k: StreamId, aborted: bool, t: State)
    requires h in s.sessions
  {
    var m := s.sessions[h];
    var mine := if kind.Bidirectional? then m.bidirectional else m.unidirectional;
    if s.activeStreams >= cfg.maxStreams
       || mine >= (if kind.Bidirectional? then cfg.maxBidirectional else cfg.maxUnidirectional) then t == s
    else
      var u := if aborted then s
               else Put(s, h, m.AddStreams(kind, 1)).(streams := s.streams[k := Stream(h, kind)], activeStreams := s.activeStreams + 1);
      && t.streams == u.streams && t.activeStreams == u.activeStreams
      && if RoomForTask(s, cfg, h) then Taken(u, cfg, h, 0, t) else GivenBack(u, 0, t)
  }

  lemma StreamsReadRight(s: State, cfg: Config, h: Handle, kind: StreamKind, k: StreamId, aborted: bool)
    requires Accounted(s, cfg) && h in s.sessions && s.sessions[h].Reading()
    ensures StreamRight(s, cfg, h, kind, k, aborted, ReadStream(s, cfg, h, kind, k, aborted))
  {
    hide Accounted, Submit, Taken, GivenBack;
    var u := if aborted then s else Track(s, h, kind, k);
    SubmitTakesFrom(s, u, cfg, h, 0);
    SubmitKeepsStreams(u, cfg, h, 0);
    hide RoomForTask;
  }

  lemma SubmitKeepsStreams(s: State, cfg: Config, h: Handle, bytes: nat)
    requires h in s.sessions
    ensures var t := Submit(s, cfg, h, bytes); t.streams == s.streams && t.activeStreams == s.activeStreams
  {
    hide Charge, Settle, Refuse;
  }

  lemma StreamsAreReadExactly(cfg: Config, states: seq<State>, events: seq<Event>, i: nat)
    requires IsRun(cfg, states, events) && i < |events| && events[i].StreamRead?
    ensures var s, e := states[i], events[i];
            && e.h in s.sessions
            && if !s.sessions[e.h].signalAborted && !s.sessions[e.h].intakeAborted then StreamRight(s, cfg, e.h, e.kind, e.k, e.aborted, states[i + 1])
               else states[i + 1] == Put(s, e.h, s.sessions[e.h].(pumps := s.sessions[e.h].pumps - {StreamPump(e.kind)}))
  {
    hide IsRun, Accounted, StreamRight, Submit;
    RunLength(cfg, states, events);
    RunEnables(cfg, states, events, i);
    EveryRunIsAccounted(cfg, states, events, i);
    var e := events[i];
    if states[i].sessions[e.h].Reading() {
      StreamsReadRight(states[i], cfg, e.h, e.kind, e.k, e.aborted);
    }
  }

  // ----- starting to read -----

  lemma ReadStartsNoPump(s: State, cfg: Config, h: Handle, arrival: Arrival)
    requires h in s.sessions && 1 <= cfg.queueSize && |s.sessions[h].feed.queue| <= cfg.queueSize
    ensures var t := ReadDatagram(s, cfg, h, arrival); h in t.sessions && NoPumpStarts(s.sessions[h], t.sessions[h])
  {
    hide F.Judge, F.Offered, F.OfferedBytes, W.TakeDatagram;
  }

  /** In every run a datagram or stream pump starts to read in exactly one way: the admission of its session
      has succeeded, with neither its own signal nor its intake aborted, in a server that runs. */
  lemma PumpsStartExactly(cfg: Config, states: seq<State>, events: seq<Event>, i: nat, h: Handle, pump: Pump)
    requires IsRun(cfg, states, events) && i < |events| && pump != DrainPump && h in states[i + 1].sessions
    requires h in states[i].sessions ==> pump !in states[i].sessions[h].pumps
    ensures pump in states[i + 1].sessions[h].pumps <==>
            && events[i].AdmissionConcluded? && events[i].h == h && pump in events[i].pumps
            && !states[i].sessions[h].signalAborted && !states[i].sessions[h].intakeAborted
            && states[i].server.state == ServerState.Running
  {
    hide IsRun, Accounted, Step, Enabled;
    RunLength(cfg, states, events);
    RunEnables(cfg, states, events, i);
    EveryRunIsAccounted(cfg, states, events, i);
    var s, e := states[i], events[i];
    if h !in s.sessions {
      NewcomersHaveReadNothing(s, cfg, e, h);
      NewcomersHaveNoPump(s, cfg, e, h);
    } else if Concludes(e, h) {
      ConcludeReadsNothing(s, cfg, e);
    } else if e.DatagramRead? && e.h == h {
      ReadIsEnabled(s, cfg, e);
      ReadStartsNoPump(s, cfg, h, e.arrival);
    } else {
      OthersReadNothing(s, cfg, e, h);
    }
  }

  lemma NewcomersHaveNoPump(s: State, cfg: Config, e: Event, h: Handle)
    requires cfg.Valid() && Accounted(s, cfg) && Enabled(s, cfg, e) && e.Offered? && e.h == h && h in Step(s, cfg, e).sessions
    ensures h !in s.sessions && Step(s, cfg, e).sessions[h].pumps == {}
  {
    OfferIsNew(s, cfg, e);
    hide Accounted, Step, Enabled, MeetsAll;
    OfferEnters(s, cfg, h, e.offer);
    hide Accept;
  }

  lemma OfferIsNew(s: State, cfg: Config, e: Event)
    requires cfg.Valid() && Enabled(s, cfg, e) && e.Offered?
    ensures e.h !in s.sessions && Step(s, cfg, e) == Accept(s, cfg, e.h, e.offer)
  {
    hide Accept;
  }
}
