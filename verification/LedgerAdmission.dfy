/**
  Who is let in (packages/nest-webtransport/src/server/webtransport-runtime.ts:420-548, 620-668): what an
  offer has to meet, stated on what is held, in the order in which it is checked.
*/
module LedgerAdmission {
  import opened Wrappers
  import opened Lifecycles
  import opened Pools
  import opened Ledgers
  import opened LedgerInvariant
  import opened LedgerSteps
  import opened LedgerEnds
  import opened LedgerRuns
  import opened LedgerTheorems
  import opened LedgerProgress
  import B = Budgets
  import IP = Slots

  // ----- the checks -----

  /** No session that is still registered has the id. */
  ghost predicate IdIsFree(s: State, id: SessionId) {
    forall h :: h in s.outstanding && h in s.sessions && !s.sessions[h].finalized ==> s.sessions[h].id != id
  }

  /** The address holds fewer sessions than its limit, has not used up its rate, and has a record or room
      for one. */
  ghost predicate AddressHasRoom(s: State, cfg: Config, o: Offer) {
    && |FromIp(s.outstanding, s.sessions, o.ip)| < cfg.ip.maxPerIp
    && IP.RoomAt(IP.Attempts(s.ip, o.ip), o.clock.threshold - IP.WINDOW_MS, cfg.ip.perSecond)
    && IP.HasRecordRoom(s.ip, cfg.ip, o.ip, o.clock.sweep)
  }

  /** What an offer has to meet so as not to be refused with this answer. */
  ghost predicate Meets(s: State, cfg: Config, o: Offer, v: Verdict) {
    match v
    case ServerUnavailable => s.server.state == ServerState.Running && o.driverRunning
    case NoRoute => o.routed
    case GlobalLimit => |s.outstanding| < cfg.maxSessions
    case DuplicateId => IdIsFree(s, o.id)
    case HeadersRejected => o.headersAllowed
    case IpLimit => AddressHasRoom(s, cfg, o)
    case HandlerLimit => |s.pool.work| < cfg.handlers.concurrency + cfg.handlers.pending
    case ReaderSetup => o.readersReserved
    case Admitted => true
  }

  /** The order of the checks. */
  function Rank(v: Verdict): nat {
    match v
    case ServerUnavailable => 0
    case NoRoute => 1
    case GlobalLimit => 2
    case DuplicateId => 3
    case HeadersRejected => 4
    case IpLimit => 5
    case HandlerLimit => 6
    case ReaderSetup => 7
    case Admitted => 8
  }

  ghost predicate MeetsAll(s: State, cfg: Config, o: Offer) {
    && s.server.state == ServerState.Running && o.driverRunning
    && o.routed
    && |s.outstanding| < cfg.maxSessions
    && IdIsFree(s, o.id)
    && o.headersAllowed
    && AddressHasRoom(s, cfg, o)
    && |s.pool.work| < cfg.handlers.concurrency + cfg.handlers.pending
    && o.readersReserved
  }

  // ----- what the program looks at is what is held -----

  lemma IdIsFreeIff(s: State, cfg: Config, id: SessionId)
    requires Accounted(s, cfg)
    ensures id in s.ids <==> !IdIsFree(s, id)
  {
    hide Accounted, ServerOk;
    ServerIsOk(s, cfg);
    if id in s.ids {
      assert s.ids[id] in s.sessions;
    }
  }

  lemma AddressHasRoomIff(s: State, cfg: Config, o: Offer)
    requires cfg.Valid() && Accounted(s, cfg)
    ensures IP.Acquire(s.ip, cfg.ip, o.ip, o.clock).1 <==> AddressHasRoom(s, cfg, o)
  {
    hide Accounted, FromIp, IP.Acquire, IP.RoomAt, IP.HasRecordRoom;
    IpIsCounted(s, cfg);
    IP.AcquireIff(s.ip, cfg.ip, o.ip, o.clock);
  }

  lemma ReservedIsWork(s: State, cfg: Config)
    requires Accounted(s, cfg)
    ensures s.pool.budget.reserved == |s.pool.work|
  {
    hide Accounted;
    PoolIsOk(s, cfg);
  }

  lemma CanReserveIff(s: State, cfg: Config)
    requires Accounted(s, cfg)
    ensures s.pool.budget.CanReserve(cfg.handlers) <==> |s.pool.work| < cfg.handlers.concurrency + cfg.handlers.pending
  {
    hide Accounted;
    ReservedIsWork(s, cfg);
  }

  /** The answer names the first check that the offer does not meet: it fails that one, and meets all before
      it; and it is admitted exactly if it meets them all. */
  ghost predicate FirstFailure(s: State, cfg: Config, o: Offer, v: Verdict) {
    && (v.Admitted? <==> MeetsAll(s, cfg, o))
    && (!v.Admitted? ==> !Meets(s, cfg, o, v))
    && (forall u: Verdict :: Rank(u) < Rank(v) ==> Meets(s, cfg, o, u))
  }

  lemma TheAnswerIsTheFirstFailure(s: State, cfg: Config, o: Offer)
    requires cfg.Valid() && Accounted(s, cfg)
    ensures FirstFailure(s, cfg, o, Judge(s, cfg, o))
  {
    hide Accounted, AddressHasRoom, IdIsFree, IP.Acquire, B.Budget.CanReserve;
    IdIsFreeIff(s, cfg, o.id);
    AddressHasRoomIff(s, cfg, o);
    CanReserveIff(s, cfg);
  }

  // ----- entering -----

  /** What an admitted session begins with: its slots and its meter; and its admission, running or waiting
      for the budget; or, if its signal had aborted already, nothing. */
  ghost predicate Enters(s: State, cfg: Config, h: Handle, o: Offer, t: State) {
    && t.outstanding == s.outstanding + {h}
    && h in t.sessions && t.sessions[h].id == o.id && t.sessions[h].ip == o.ip
    && t.sessions[h].meter.used == 0 && t.sessions[h].meter.startedAt == o.openedAt
    && t.sessions[h].tasks.Idle() && t.sessions[h].pumps == {} && !t.sessions[h].admitted
    && t.sessions[h].signalAborted == t.sessions[h].finalized == o.aborted
    && (if o.aborted then t.pool.work == s.pool.work && t.sessions[h].admission.None?
        else
          && t.sessions[h].admission == Some(s.pool.next)
          && t.pool.work == s.pool.work[s.pool.next :=
               Work(h, Admission, 0, if s.pool.budget.running < cfg.handlers.concurrency then Phase.Running else Waiting)])
  }

  /** A refused offer leaves everything but the table of addresses as it was, and that with the same counts:
      what earlier checks took has been given back. */
  ghost predicate Unmoved(s: State, t: State) {
    && t.outstanding == s.outstanding && t.sessions == s.sessions && t.ids == s.ids && t.server == s.server
    && t.streams == s.streams && t.activeStreams == s.activeStreams && t.queuedBytes == s.queuedBytes
    && t.pool.work == s.pool.work && t.pool.budget == s.pool.budget
    && forall a :: IP.Active(t.ip, a) == IP.Active(s.ip, a)
  }

  lemma AdmitEnters(s: State, cfg: Config, h: Handle, o: Offer)
    requires cfg.Valid() && Accounted(s, cfg) && h !in s.sessions && Judge(s, cfg, o).Admitted? && !o.aborted
    ensures Enters(s, cfg, h, o, Accept(s, cfg, h, o))
  {
    hide Accounted, IP.Acquire, Judge;
    AcceptIsAdmit(s, cfg, h, o);
    hide Accept;
    PoolIsOk(s, cfg);
    assert s.pool.work[s.pool.next := Work(h, Admission, 0, Started)][s.pool.next := Work(h, Admission, 0, Phase.Running)]
        == s.pool.work[s.pool.next := Work(h, Admission, 0, Phase.Running)];
    assert s.pool.work[s.pool.next := Work(h, Admission, 0, Started)][s.pool.next := Work(h, Admission, 0, Waiting)]
        == s.pool.work[s.pool.next := Work(h, Admission, 0, Waiting)];
  }

  lemma BouncedIsSame(p: Pool, limits: B.Limits, h: Handle)
    requires Pools.Inv(p, limits)
    ensures Bounced(p, h).work == p.work && Bounced(p, h).budget == p.budget && Bounced(p, h).next == p.next + 1
  {
    assert p.next !in p.work;
    assert p.work[p.next := Work(h, Admission, 0, Started)] - {p.next} == p.work;
  }

  lemma AbortedEnters(s: State, cfg: Config, h: Handle, o: Offer)
    requires cfg.Valid() && Accounted(s, cfg) && h !in s.sessions && Judge(s, cfg, o).Admitted? && o.aborted
    ensures Enters(s, cfg, h, o, Accept(s, cfg, h, o))
  {
    hide Accounted, IP.Acquire, Judge, Bounced;
    var t := Added(s, cfg, h, o).(pool := Bounced(s.pool, h), sessions := s.sessions[h := NewSession(o)]);
    assert Accept(s, cfg, h, o) == Finalize(t, cfg, h) by {
      hide Finalize;
      AcceptIsFinalize(s, cfg, h, o, t);
    }
    hide Accept;
    PoolIsOk(s, cfg);
    BouncedIsSame(s.pool, cfg.handlers, h);
    OutstandingIsKnown(s, cfg);
    NobodyOfItsOwn(s, cfg, h);
    assert WaitersOf(t.pool.budget.waiters, t.pool.work, h) == [] by {
      assert forall w :: w in WaitersOf(t.pool.budget.waiters, t.pool.work, h) ==> false;
    }
  }

  lemma NobodyOfItsOwn(s: State, cfg: Config, h: Handle)
    requires Accounted(s, cfg) && h !in s.sessions
    ensures forall w :: w in s.pool.work ==> s.pool.work[w].session != h
  {
    hide Accounted;
    forall w | w in s.pool.work
      ensures s.pool.work[w].session != h
    {
      WorkIsPlaced(s, cfg, w);
    }
  }

  lemma RefusedIsUnmoved(s: State, cfg: Config, h: Handle, o: Offer)
    requires cfg.Valid() && Accounted(s, cfg) && !Judge(s, cfg, o).Admitted?
    ensures Unmoved(s, Accept(s, cfg, h, o))
  {
    hide Accounted, IP.Acquire, IP.Release, IP.Active, Bounced;
    PoolIsOk(s, cfg);
    BouncedIsSame(s.pool, cfg.handlers, h);
    var t := Accept(s, cfg, h, o);
    var (table, ok) := IP.Acquire(s.ip, cfg.ip, o.ip, o.clock);
    forall a
      ensures IP.Active(t.ip, a) == IP.Active(s.ip, a)
    {
      IP.AcquireCounts(s.ip, cfg.ip, o.ip, o.clock, a);
      IP.AcquireCounts(s.ip, cfg.ip, o.ip, o.clock, o.ip);
      if ok {
        IP.ReleaseCounts(table, cfg.ip, o.ip, o.freedAt, a);
      }
    }
  }

  // ----- over a run -----

  /** In every run a handle comes to hold slots in exactly one way: it is offered to a running server whose
      driver runs, with a route, with room for the session, a free id, headers that are allowed, room for
      its address, room in the handlers' capacity, and readers to be had; and every such offer enters. */
  lemma EntersExactlyByAGoodOffer(cfg: Config, states: seq<State>, events: seq<Event>, i: nat, h: Handle)
    requires IsRun(cfg, states, events) && i < |events|
    ensures h !in states[i].outstanding && h in states[i + 1].outstanding <==>
            events[i].Offered? && events[i].h == h && MeetsAll(states[i], cfg, events[i].offer)
  {
    hide IsRun, Accounted, MeetsAll, Judge;
    RunLength(cfg, states, events);
    RunEnables(cfg, states, events, i);
    EveryRunIsAccounted(cfg, states, events, i);
    OutstandingIsKnown(states[i], cfg);
    if events[i].Offered? && events[i].h == h {
      hide Accept;
      OfferEnters(states[i], cfg, h, events[i].offer);
      hide Enters, Unmoved;
    } else {
      hide Step, Enabled;
      OthersDoNotEnter(states[i], cfg, events[i], h);
    }
  }

  lemma OthersDoNotEnter(s: State, cfg: Config, e: Event, h: Handle)
    requires cfg.Valid() && Accounted(s, cfg) && Enabled(s, cfg, e) && !(e.Offered? && e.h == h)
    ensures h in Step(s, cfg, e).outstanding ==> h in s.outstanding
  {
    StepKeepsHandles(s, cfg, e);
    hide Accounted, Step, Enabled;
    if h in Step(s, cfg, e).outstanding {
      StepKeepsAccounts(s, cfg, e);
      OutstandingIsKnown(Step(s, cfg, e), cfg);
    }
  }

  /** What every offer does, as its answer says. */
  lemma OfferEnters(s: State, cfg: Config, h: Handle, o: Offer)
    requires cfg.Valid() && Accounted(s, cfg) && h !in s.sessions
    ensures h !in s.outstanding
    ensures MeetsAll(s, cfg, o) ==> Enters(s, cfg, h, o, Accept(s, cfg, h, o)) && h in Accept(s, cfg, h, o).outstanding
    ensures !MeetsAll(s, cfg, o) ==> Unmoved(s, Accept(s, cfg, h, o)) && h !in Accept(s, cfg, h, o).outstanding
  {
    hide Accounted, Accept, Judge, MeetsAll, Meets, Rank;
    OutstandingIsKnown(s, cfg);
    TheAnswerIsTheFirstFailure(s, cfg, o);
    if MeetsAll(s, cfg, o) {
      if o.aborted {
        AbortedEnters(s, cfg, h, o);
      } else {
        AdmitEnters(s, cfg, h, o);
      }
    } else {
      RefusedIsUnmoved(s, cfg, h, o);
    }
  }

  /** In every run an offer either enters with all it needs or moves nothing but the table of addresses. */
  lemma OffersEnterOrMoveNothing(cfg: Config, states: seq<State>, events: seq<Event>, i: nat)
    requires IsRun(cfg, states, events) && i < |events| && events[i].Offered?
    ensures var s, t, h, o := states[i], states[i + 1], events[i].h, events[i].offer;
            if MeetsAll(s, cfg, o) then Enters(s, cfg, h, o, t) else Unmoved(s, t)
  {
    hide IsRun, Accounted, MeetsAll, Judge, Accept, Enters, Unmoved;
    RunLength(cfg, states, events);
    RunEnables(cfg, states, events, i);
    EveryRunIsAccounted(cfg, states, events, i);
    OfferEnters(states[i], cfg, events[i].h, events[i].offer);
  }
}
