/**
  The rate at which one address is given session slots, over the runs of the whole ledger
  (packages/nest-webtransport/src/server/webtransport-runtime.ts:420-548, 1218-1275, 1409-1418): a slot is taken by an
  offer that gets past the table of addresses, and given back by an offer that is refused further on or by
  a session that retires.
*/
module LedgerWindows {
  import opened Pools
  import opened Ledgers
  import opened LedgerTheorems
  import opened LedgerProgress
  import F = Feeds
  import IP = Slots
  import Srv = Servers

  // ----- what a run reads off the clock, and what it grants -----

  /** The offer takes a slot of its address, if only to give it back in the same segment. */
  predicate TakesSlot(v: Verdict) {
    v.HandlerLimit? || v.ReaderSetup? || v.Admitted?
  }

  /** The clock readings of one event, in the order in which it makes them. A reading that `acquire` would
      have made further on may have any value that keeps the order. */
  function Readings(s: State, cfg: Config, e: Event): seq<int> {
    match e
    case Offered(_, o) =>
      (match Judge(s, cfg, o)
       case IpLimit => [o.clock.sweep, o.clock.threshold, o.clock.push]
       case Admitted => [o.clock.sweep, o.clock.threshold, o.clock.push]
       case HandlerLimit => [o.clock.sweep, o.clock.threshold, o.clock.push, o.freedAt]
       case ReaderSetup => [o.clock.sweep, o.clock.threshold, o.clock.push, o.freedAt]
       case _ => [])
    case Retired(h, now) => if h in s.outstanding then [now] else []
    case _ => []
  }

  function AllReadings(cfg: Config, states: seq<State>, events: seq<Event>, k: nat): seq<int>
    requires k <= |events| && k <= |states|
  {
    if k == 0 then [] else AllReadings(cfg, states, events, k - 1) + Readings(states[k - 1], cfg, events[k - 1])
  }

  /** When the address took a slot in this event, if it did. */
  function TakenAt(s: State, cfg: Config, e: Event, a: IP.Address): seq<int> {
    if e.Offered? && e.offer.ip == a && TakesSlot(Judge(s, cfg, e.offer)) then [e.offer.clock.push] else []
  }

  /** When the address was admitted a session. */
  function AdmittedAt(s: State, cfg: Config, e: Event, a: IP.Address): seq<int> {
    if e.Offered? && e.offer.ip == a && Judge(s, cfg, e.offer).Admitted? then [e.offer.clock.push] else []
  }

  function SlotsTaken(cfg: Config, states: seq<State>, events: seq<Event>, k: nat, a: IP.Address): seq<int>
    requires k <= |events| && k <= |states|
  {
    if k == 0 then [] else SlotsTaken(cfg, states, events, k - 1, a) + TakenAt(states[k - 1], cfg, events[k - 1], a)
  }

  function SessionsAdmitted(cfg: Config, states: seq<State>, events: seq<Event>, k: nat, a: IP.Address): seq<int>
    requires k <= |events| && k <= |states|
  {
    if k == 0 then []
    else SessionsAdmitted(cfg, states, events, k - 1, a) + AdmittedAt(states[k - 1], cfg, events[k - 1], a)
  }

  // ----- the table under one event -----

  lemma {:induction false} StopIntakeAllSameIp(s: State, order: seq<Handle>)
    ensures StopIntakeAll(s, order).ip == s.ip
    decreases |order|
  {
    if order != [] {
      StopIntakeAllSameIp(if order[0] in s.sessions then StopIntake(s, order[0]) else s, order[1..]);
    }
  }

  lemma {:induction false} ForceAllSameIp(s: State, cfg: Config, order: seq<Handle>)
    ensures ForceAll(s, cfg, order).ip == s.ip
    decreases |order|
  {
    hide AbandonSession, SettleAll, BytesOf;
    if order != [] {
      ForceAllSameIp(if order[0] in s.sessions then Force(s, cfg, order[0]) else s, cfg, order[1..]);
    }
  }

  lemma {:induction false} FinalizeAllSameIp(s: State, cfg: Config, order: seq<Handle>)
    ensures FinalizeAll(s, cfg, order).ip == s.ip
    decreases |order|
  {
    hide AbandonSession, SettleAll, BytesOf;
    if order != [] {
      FinalizeAllSameIp(if order[0] in s.sessions then Finalize(s, cfg, order[0]) else s, cfg, order[1..]);
    }
  }

  lemma ServerSameIp(s: State, cfg: Config, e: Srv.Event, order: seq<Handle>)
    requires Srv.Enabled(s.server, e)
    ensures MoveServer(s, cfg, e, order).ip == s.ip
  {
    hide StopIntakeAll, ForceAll, FinalizeAll, Srv.Step;
    StopIntakeAllSameIp(s, order);
    ForceAllSameIp(StopIntakeAll(s, order), cfg, order);
    ForceAllSameIp(s, cfg, order);
    FinalizeAllSameIp(s, cfg, order);
  }

  lemma SubmitSameIp(s: State, cfg: Config, h: Handle, bytes: nat)
    requires h in s.sessions
    ensures Submit(s, cfg, h, bytes).ip == s.ip
  {
    hide Charge, Settle, Refuse;
  }

  lemma AbortSameIp(s: State, cfg: Config, h: Handle)
    requires h in s.sessions
    ensures AbortSignal(s, cfg, h).ip == s.ip
  {
    hide AbandonSession, SettleAll, BytesOf, StreamsOf;
  }

  /** Only offers and retirements touch the table. */
  lemma OthersSameIp(s: State, cfg: Config, e: Event)
    requires cfg.Valid() && Enabled(s, cfg, e) && !e.Offered? && !e.Retired?
    ensures Step(s, cfg, e).ip == s.ip
  {
    hide Submit, AbortSignal, MoveServer, AbandonSession, Enter, Leave, Settle, Start, F.Offered, F.Judge, Srv.Enabled, Walks;
    match e {
      case DrainResumed(h) =>
        var m := s.sessions[h];
        if m.feed.queue != [] {
          SubmitSameIp(Put(s, h, m.(feed := F.Taken(m.feed))), cfg, h, m.feed.queue[0].size);
        }
      case StreamRead(h, kind, k, aborted) => SubmitSameIp(if aborted then s else Track(s, h, kind, k), cfg, h, 0);
      case SignalAborted(h) => AbortSameIp(s, cfg, h);
      case ServerMoved(move, order) => ServerSameIp(s, cfg, move, order);
      case _ =>
    }
  }

  lemma AcceptedIp(s: State, cfg: Config, h: Handle, o: Offer)
    ensures var (table, ok) := IP.Acquire(s.ip, cfg.ip, o.ip, o.clock);
            var v := Judge(s, cfg, o);
            && Accept(s, cfg, h, o).ip == (match v
                                           case IpLimit => table
                                           case Admitted => table
                                           case HandlerLimit => IP.Release(table, o.ip, o.freedAt)
                                           case ReaderSetup => IP.Release(table, o.ip, o.freedAt)
                                           case _ => s.ip)
            && (TakesSlot(v) ==> ok) && (v.IpLimit? ==> !ok)
  {
    hide IP.Acquire, IP.Release, Charge, Enter, Bounced, AbandonSession, SettleAll, BytesOf;
  }

  ghost predicate HonestFor(cfg: Config, grants: seq<int>, s: State, now: int, a: IP.Address) {
    IP.HonestAt(grants, IP.Attempts(s.ip, a), now, cfg.ip.perSecond)
  }

  lemma OfferKeepsHonest(s: State, cfg: Config, h: Handle, o: Offer, a: IP.Address, grants: seq<int>)
    requires var rs := Readings(s, cfg, Offered(h, o)); rs != [] && IP.Sorted(rs) && HonestFor(cfg, grants, s, rs[0], a)
    ensures var rs := Readings(s, cfg, Offered(h, o));
            HonestFor(cfg, grants + TakenAt(s, cfg, Offered(h, o), a), Accept(s, cfg, h, o), rs[|rs| - 1], a)
  {
    hide IP.HonestAt, IP.Attempts, IP.Acquire, IP.Release, Judge, Accept;
    var rs := Readings(s, cfg, Offered(h, o));
    AcceptedIp(s, cfg, h, o);
    assert rs[0] <= rs[1] <= rs[2];
    var l := IP.Log(s.ip, o.clock.sweep, map[a := grants]);
    IP.AskKeepsHonest(l, cfg.ip, o.ip, o.clock, a);
    var asked := IP.Step(l, cfg.ip, IP.Asked(o.ip, o.clock));
    assert asked.Grants(a) == grants + TakenAt(s, cfg, Offered(h, o), a);
    if |rs| == 4 {
      assert rs[2] <= rs[3];
      IP.FreeKeepsHonest(asked, cfg.ip, o.ip, o.freedAt, a);
    }
  }

  lemma RetireKeepsHonest(s: State, cfg: Config, h: Handle, now: int, a: IP.Address, grants: seq<int>)
    requires h in s.sessions && HonestFor(cfg, grants, s, now, a)
    ensures HonestFor(cfg, grants, Retire(s, h, now), now, a)
  {
    hide IP.HonestAt, IP.Attempts, IP.Release;
    IP.FreeKeepsHonest(IP.Log(s.ip, now, map[a := grants]), cfg.ip, s.sessions[h].ip, now, a);
  }

  lemma StepKeepsHonest(s: State, cfg: Config, e: Event, a: IP.Address, grants: seq<int>, before: int, now: int)
    requires cfg.Valid() && Enabled(s, cfg, e)
    requires var rs := Readings(s, cfg, e);
             && IP.Sorted(rs) && before == (if rs == [] then now else rs[0])
             && (rs != [] ==> rs[|rs| - 1] <= now)
    requires HonestFor(cfg, grants, s, before, a)
    ensures HonestFor(cfg, grants + TakenAt(s, cfg, e, a), Step(s, cfg, e), now, a)
  {
    hide IP.HonestAt, IP.Attempts, IP.Sorted, Judge, Accept, Retire, CanRetire;
    var rs, t := Readings(s, cfg, e), Step(s, cfg, e);
    var after := grants + TakenAt(s, cfg, e, a);
    if e.Offered? {
      hide Enabled;
      AcceptedIp(s, cfg, e.h, e.offer);
      if rs == [] {
        assert after == grants;
      } else {
        OfferKeepsHonest(s, cfg, e.h, e.offer, a, grants);
        IP.LaterStaysHonest(after, IP.Attempts(t.ip, a), rs[|rs| - 1], now, cfg.ip.perSecond);
      }
    } else {
      assert after == grants;
      if e.Retired? {
        if e.h in s.outstanding {
          RetireKeepsHonest(s, cfg, e.h, e.now, a, grants);
          IP.LaterStaysHonest(after, IP.Attempts(t.ip, a), e.now, now, cfg.ip.perSecond);
        } else {
          RetiredAlready(s, e.h, e.now);
        }
      } else {
        OthersSameIp(s, cfg, e);
      }
    }
  }

  lemma RetiredAlready(s: State, h: Handle, now: int)
    requires h in s.sessions && h !in s.outstanding
    ensures Retire(s, h, now) == s
  {
  }

  // ----- over a run -----

  lemma {:induction false} EveryRunIsHonest(cfg: Config, states: seq<State>, events: seq<Event>, k: nat, a: IP.Address, now: int)
    requires IsRun(cfg, states, events) && k < |states| && |states| == |events| + 1
    requires IP.Sorted(AllReadings(cfg, states, events, k) + [now])
    ensures HonestFor(cfg, SlotsTaken(cfg, states, events, k, a), states[k], now, a)
  {
    hide IsRun, Enabled, Step, Readings, TakenAt;
    RunLength(cfg, states, events);
    if k == 0 {
      StartsEmpty(cfg, states, events);
    } else {
      var all, rs := AllReadings(cfg, states, events, k - 1), Readings(states[k - 1], cfg, events[k - 1]);
      var before := if rs == [] then now else rs[0];
      SortedParts(all, rs, now);
      hide IP.Sorted, HonestFor;
      EveryRunIsHonest(cfg, states, events, k - 1, a, before);
      RunEnables(cfg, states, events, k - 1);
      StepKeepsHonest(states[k - 1], cfg, events[k - 1], a, SlotsTaken(cfg, states, events, k - 1, a), before, now);
    }
  }

  lemma SortedParts(all: seq<int>, rs: seq<int>, now: int)
    requires IP.Sorted(all + rs + [now])
    ensures IP.Sorted(rs) && (rs != [] ==> rs[|rs| - 1] <= now)
    ensures IP.Sorted(all + [if rs == [] then now else rs[0]])
  {
    var whole := all + rs + [now];
    forall i, j | 0 <= i <= j < |rs|
      ensures rs[i] <= rs[j]
    {
      assert whole[|all| + i] <= whole[|all| + j];
    }
    if rs != [] {
      assert whole[|all| + |rs| - 1] <= whole[|all| + |rs|];
    }
    assert all + [if rs == [] then now else rs[0]] == whole[..|all| + 1];
  }

  lemma StartsEmpty(cfg: Config, states: seq<State>, events: seq<Event>)
    requires IsRun(cfg, states, events)
    ensures states[0].ip == map[]
  {
    hide Enabled, Step;
  }

  /** With a clock that does not run backwards: in every run of the ledger, every half-open window of one
      second, wherever it starts, holds at most `perSecond` slots taken by one address - those given back at
      once because the handlers' capacity or the session's readers were not to be had included. */
  lemma EveryWindowIsBounded(cfg: Config, states: seq<State>, events: seq<Event>, k: nat, a: IP.Address, from: int)
    requires IsRun(cfg, states, events) && k <= |events| && k < |states|
    requires IP.Sorted(AllReadings(cfg, states, events, k))
    ensures IP.CountIn(SlotsTaken(cfg, states, events, k, a), from) <= cfg.ip.perSecond
  {
    hide IsRun;
    RunLength(cfg, states, events);
    var all := AllReadings(cfg, states, events, k);
    var now := if all == [] then 0 else all[|all| - 1];
    EveryRunIsHonest(cfg, states, events, k, a, now);
    IP.SpacedMeansFew(SlotsTaken(cfg, states, events, k, a), cfg.ip.perSecond, from);
  }

  lemma CountMore(s: seq<int>, t: seq<int>, from: int)
    requires |t| <= 1
    ensures IP.CountIn(s + t, from) == IP.CountIn(s, from) + IP.CountIn(t, from)
  {
    if t == [] {
      assert s + t == s;
    } else {
      assert (s + t)[..|s|] == s && t[..0] == [];
    }
  }

  lemma AdmittedIsTaken(s: State, cfg: Config, e: Event, a: IP.Address)
    ensures |TakenAt(s, cfg, e, a)| <= 1 && |AdmittedAt(s, cfg, e, a)| <= 1
    ensures AdmittedAt(s, cfg, e, a) == [] || AdmittedAt(s, cfg, e, a) == TakenAt(s, cfg, e, a)
  {
    hide Judge;
  }

  lemma {:induction false} AdmittedAreTaken(cfg: Config, states: seq<State>, events: seq<Event>, k: nat, a: IP.Address, from: int)
    requires k <= |events| && k <= |states|
    ensures IP.CountIn(SessionsAdmitted(cfg, states, events, k, a), from)
            <= IP.CountIn(SlotsTaken(cfg, states, events, k, a), from)
  {
    hide TakenAt, AdmittedAt, IP.CountIn;
    if k != 0 {
      var s, e := states[k - 1], events[k - 1];
      AdmittedAreTaken(cfg, states, events, k - 1, a, from);
      AdmittedIsTaken(s, cfg, e, a);
      CountMore(SlotsTaken(cfg, states, events, k - 1, a), TakenAt(s, cfg, e, a), from);
      CountMore(SessionsAdmitted(cfg, states, events, k - 1, a), AdmittedAt(s, cfg, e, a), from);
      CountNone(from);
    }
  }

  lemma CountNone(from: int)
    ensures IP.CountIn([], from) == 0
  {
  }

  /** So no address is admitted more than `perSecond` sessions in any such window. */
  lemma AdmissionsAreBounded(cfg: Config, states: seq<State>, events: seq<Event>, k: nat, a: IP.Address, from: int)
    requires IsRun(cfg, states, events) && k <= |events| && k < |states|
    requires IP.Sorted(AllReadings(cfg, states, events, k))
    ensures IP.CountIn(SessionsAdmitted(cfg, states, events, k, a), from) <= cfg.ip.perSecond
  {
    hide IsRun;
    EveryWindowIsBounded(cfg, states, events, k, a, from);
    AdmittedAreTaken(cfg, states, events, k, a, from);
  }
}
