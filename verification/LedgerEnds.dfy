/** Streams, and every way a session ends: the remaining segments keep the ledger's invariant. */
module LedgerEnds {
  import opened Wrappers
  import opened Sums
  import opened Pools
  import opened Ledgers
  import opened LedgerInvariant
  import opened LedgerSteps
  import B = Budgets
  import F = Feeds
  import IP = Slots
  import Srv = Servers
  import T = Tasks

  // ----- streams -----

  /** Two records that differ at most in their stream counters. */
  ghost predicate SameButStreams(m: Session, m': Session) {
    m' == m.(bidirectional := m'.bidirectional, unidirectional := m'.unidirectional)
  }

  lemma SameButStreamsIsOk(m: Session, m': Session, cfg: Config)
    requires SameButStreams(m, m')
    ensures SessionOk(m, cfg) ==> SessionOk(m', cfg)
    ensures Gone(m) ==> Gone(m')
    ensures FeedWeight(m) == FeedWeight(m')
  {
    hide F.Ok;
  }

  lemma RestreamKeepsAccounts(s: State, cfg: Config, h: Handle, m: Session, streams: map<StreamId, Stream>, active: int)
    requires Accounted(s, cfg) && h in s.sessions && SameButStreams(s.sessions[h], m)
    requires StreamsCounted(streams, active, s.sessions[h := m], cfg)
    ensures Accounted(Put(s, h, m).(streams := streams, activeStreams := active), cfg)
  {
    hide Pools.Inv, Placed, NoAbortedWaiters, Charged, AllOk, Registered, IpCounted, StreamsCounted, ServerOk;
    hide SessionOk, Gone, FeedWeight;
    SessionIsOk(s, cfg, h);
    SameButStreamsIsOk(s.sessions[h], m, cfg);
    PutPlaced(s.pool.work, s.sessions, s.outstanding, cfg.tasks, h, m);
    PutWaiters(s.pool.work, s.sessions, h, m);
    PutCharged(s.queuedBytes, s.pool.work, s.sessions, h, m);
    PutAllOk(s.sessions, s.outstanding, cfg, h, m);
    PutRegistered(s.ids, s.outstanding, s.sessions, cfg.maxSessions, h, m);
    PutIpCounted(s.ip, s.outstanding, s.sessions, cfg.ip, h, m);
    PutServerOk(s.server, s.ids, s.outstanding, s.sessions, h, m);
  }

  lemma StreamsAreCounted(s: State, cfg: Config)
    requires Accounted(s, cfg)
    ensures StreamsCounted(s.streams, s.activeStreams, s.sessions, cfg)
  {
    hide Pools.Inv, Placed, NoAbortedWaiters, Charged, AllOk, Registered, IpCounted, StreamsCounted, ServerOk;
  }

  lemma StreamsOfAdd(streams: map<StreamId, Stream>, k: StreamId, st: Stream, h: Handle, kind: StreamKind)
    requires k !in streams
    ensures StreamsOf(streams[k := st], h, kind) ==
            if st == Stream(h, kind) then StreamsOf(streams, h, kind) + {k} else StreamsOf(streams, h, kind)
    ensures k !in StreamsOf(streams, h, kind)
  {
  }

  lemma StreamsOfDrop(streams: map<StreamId, Stream>, k: StreamId, h: Handle, kind: StreamKind)
    requires k in streams
    ensures StreamsOf(streams - {k}, h, kind) ==
            if streams[k] == Stream(h, kind) then StreamsOf(streams, h, kind) - {k} else StreamsOf(streams, h, kind)
    ensures streams[k] == Stream(h, kind) ==> k in StreamsOf(streams, h, kind)
  {
  }

  lemma TrackedStreams(streams: map<StreamId, Stream>, active: int, sessions: map<Handle, Session>, cfg: Config,
                       h: Handle, kind: StreamKind, k: StreamId)
    requires StreamsCounted(streams, active, sessions, cfg) && h in sessions && k !in streams
    requires !sessions[h].signalAborted
    requires active < cfg.maxStreams && sessions[h].Streams(kind) < cfg.MaxStreams(kind)
    ensures StreamsCounted(streams[k := Stream(h, kind)], active + 1, sessions[h := sessions[h].AddStreams(kind, 1)], cfg)
  {
    var m := sessions[h].AddStreams(kind, 1);
    var streams' := streams[k := Stream(h, kind)];
    forall h', kind' | h' in sessions
      ensures sessions[h := m][h'].Streams(kind') == |StreamsOf(streams', h', kind')| <= cfg.MaxStreams(kind')
    {
      StreamsOfAdd(streams, k, Stream(h, kind), h', kind');
    }
    hide StreamsOf;
  }

  lemma TrackKeepsAccounts(s: State, cfg: Config, h: Handle, kind: StreamKind, k: StreamId)
    requires Accounted(s, cfg) && h in s.sessions && k !in s.streams && !s.sessions[h].signalAborted
    requires s.activeStreams < cfg.maxStreams && s.sessions[h].Streams(kind) < cfg.MaxStreams(kind)
    ensures Accounted(Track(s, h, kind, k), cfg)
  {
    hide Accounted, StreamsCounted;
    StreamsAreCounted(s, cfg);
    TrackedStreams(s.streams, s.activeStreams, s.sessions, cfg, h, kind, k);
    RestreamKeepsAccounts(s, cfg, h, s.sessions[h].AddStreams(kind, 1), s.streams[k := Stream(h, kind)], s.activeStreams + 1);
  }

  lemma ReleasedStream(streams: map<StreamId, Stream>, active: int, sessions: map<Handle, Session>, cfg: Config, k: StreamId)
    requires StreamsCounted(streams, active, sessions, cfg) && k in streams
    ensures var h := streams[k].session;
            h in sessions &&
            StreamsCounted(streams - {k}, active - 1, sessions[h := sessions[h].AddStreams(streams[k].kind, -1)], cfg)
  {
    hide StreamsOf, Config.MaxStreams;
    var h := streams[k].session;
    var m := sessions[h].AddStreams(streams[k].kind, -1);
    forall h', kind' | h' in sessions
      ensures sessions[h := m][h'].Streams(kind') == |StreamsOf(streams - {k}, h', kind')| <= cfg.MaxStreams(kind')
    {
      StreamsOfDrop(streams, k, h', kind');
    }
    DropOne(streams, k);
  }

  lemma DropOne(streams: map<StreamId, Stream>, k: StreamId)
    requires k in streams
    ensures |streams - {k}| == |streams| - 1
  {
    assert (streams - {k}).Keys == streams.Keys - {k};
    assert |streams.Keys - {k}| == |streams.Keys| - 1;
  }

  lemma ReleaseKeepsAccounts(s: State, cfg: Config, k: StreamId)
    requires Accounted(s, cfg) && k in s.streams && s.streams[k].session in s.sessions
    ensures Accounted(ReleaseStream(s, k), cfg)
  {
    hide Accounted, StreamsCounted;
    StreamsAreCounted(s, cfg);
    ReleasedStream(s.streams, s.activeStreams, s.sessions, cfg, k);
    var st := s.streams[k];
    RestreamKeepsAccounts(s, cfg, st.session, s.sessions[st.session].AddStreams(st.kind, -1),
                          s.streams - {k}, s.activeStreams - 1);
  }

  lemma ReleasedAll(streams: map<StreamId, Stream>, active: int, sessions: map<Handle, Session>, cfg: Config, h: Handle)
    requires StreamsCounted(streams, active, sessions, cfg) && h in sessions
    ensures var both := StreamsOf(streams, h, Bidirectional); var one := StreamsOf(streams, h, Unidirectional);
            var m := sessions[h].AddStreams(Bidirectional, -|both|).AddStreams(Unidirectional, -|one|);
            && m.bidirectional == 0 && m.unidirectional == 0
            && StreamsCounted(streams - (both + one), active - |both| - |one|, sessions[h := m], cfg)
            && (forall k :: k in streams - (both + one) ==> streams[k].session != h)
  {
    var both := StreamsOf(streams, h, Bidirectional);
    var one := StreamsOf(streams, h, Unidirectional);
    var m := sessions[h].AddStreams(Bidirectional, -|both|).AddStreams(Unidirectional, -|one|);
    var left := streams - (both + one);
    hide StreamsOf, StreamsCounted;
    LeftStreams(streams, h);
    CountedParts(streams, active, sessions, cfg);
    assert sessions[h].Streams(Bidirectional) == |both| && sessions[h].Streams(Unidirectional) == |one|;
    forall h', kind' | h' in sessions[h := m]
      ensures sessions[h := m][h'].Streams(kind') == |StreamsOf(left, h', kind')| <= cfg.MaxStreams(kind')
    {
      LeftCount(streams, active, sessions, cfg, h, h', kind');
    }
    hide Session.Streams, Session.AddStreams;
    CountedWhole(left, active - |both| - |one|, sessions[h := m], cfg);
  }

  lemma CountedParts(streams: map<StreamId, Stream>, active: int, sessions: map<Handle, Session>, cfg: Config)
    requires StreamsCounted(streams, active, sessions, cfg)
    ensures active == |streams| <= cfg.maxStreams
    ensures forall k :: k in streams ==> streams[k].session in sessions && !sessions[streams[k].session].signalAborted
    ensures forall h, kind :: h in sessions ==>
              sessions[h].Streams(kind) == |StreamsOf(streams, h, kind)| <= cfg.MaxStreams(kind)
  {
    hide StreamsOf, Session.Streams;
  }

  lemma CountedWhole(streams: map<StreamId, Stream>, active: int, sessions: map<Handle, Session>, cfg: Config)
    requires active == |streams| <= cfg.maxStreams
    requires forall k :: k in streams ==> streams[k].session in sessions && !sessions[streams[k].session].signalAborted
    requires forall h, kind :: h in sessions ==>
               sessions[h].Streams(kind) == |StreamsOf(streams, h, kind)| <= cfg.MaxStreams(kind)
    ensures StreamsCounted(streams, active, sessions, cfg)
  {
    hide StreamsOf, Session.Streams;
  }

  lemma LeftCount(streams: map<StreamId, Stream>, active: int, sessions: map<Handle, Session>, cfg: Config,
                  h: Handle, h': Handle, kind: StreamKind)
    requires StreamsCounted(streams, active, sessions, cfg) && h in sessions && h' in sessions
    ensures var both := StreamsOf(streams, h, Bidirectional); var one := StreamsOf(streams, h, Unidirectional);
            var m := sessions[h].AddStreams(Bidirectional, -|both|).AddStreams(Unidirectional, -|one|);
            sessions[h := m][h'].Streams(kind) == |StreamsOf(streams - (both + one), h', kind)| <= cfg.MaxStreams(kind)
  {
    hide StreamsOf;
    LeftStreams(streams, h);
    assert sessions[h'].Streams(kind) == |StreamsOf(streams, h', kind)| <= cfg.MaxStreams(kind);
  }

  lemma KindsCover(streams: map<StreamId, Stream>, k: StreamId)
    requires k in streams
    ensures k in StreamsOf(streams, streams[k].session, Bidirectional) + StreamsOf(streams, streams[k].session, Unidirectional)
  {
    var h := streams[k].session;
    if streams[k].kind.Bidirectional? {
      assert streams[k] == Stream(h, Bidirectional);
      assert k in StreamsOf(streams, h, Bidirectional);
    } else {
      assert streams[k] == Stream(h, Unidirectional);
      assert k in StreamsOf(streams, h, Unidirectional);
    }
  }

  lemma LeftStreams(streams: map<StreamId, Stream>, h: Handle)
    ensures var both := StreamsOf(streams, h, Bidirectional); var one := StreamsOf(streams, h, Unidirectional);
            var left := streams - (both + one);
            && |left| == |streams| - |both| - |one|
            && (forall k :: k in left ==> k in streams && left[k] == streams[k] && streams[k].session != h)
            && (forall h', kind' :: StreamsOf(left, h', kind') == if h' == h then {} else StreamsOf(streams, h', kind'))
  {
    var both := StreamsOf(streams, h, Bidirectional);
    var one := StreamsOf(streams, h, Unidirectional);
    var left := streams - (both + one);
    forall k | k in left ensures streams[k].session != h {
      KindsCover(streams, k);
    }
    forall h', kind'
      ensures StreamsOf(left, h', kind') == if h' == h then {} else StreamsOf(streams, h', kind')
    {
    }
    assert left.Keys == streams.Keys - (both + one);
    assert both !! one && both + one <= streams.Keys;
    DropSize(streams.Keys, both, one);
    assert |left| == |left.Keys|;
  }

  lemma DropSize<K>(all: set<K>, a: set<K>, b: set<K>)
    requires a !! b && a + b <= all
    ensures |all - (a + b)| == |all| - |a| - |b|
  {
    assert |a + b| == |a| + |b|;
    assert all == (all - (a + b)) + (a + b);
  }

  lemma ReleaseAllKeepsAccounts(s: State, cfg: Config, h: Handle)
    requires Accounted(s, cfg) && h in s.sessions
    ensures Accounted(ReleaseAll(s, h), cfg)
    ensures forall k :: k in ReleaseAll(s, h).streams ==> ReleaseAll(s, h).streams[k].session != h
  {
    hide Accounted, StreamsCounted, StreamsOf;
    StreamsAreCounted(s, cfg);
    ReleasedAll(s.streams, s.activeStreams, s.sessions, cfg, h);
    var both := StreamsOf(s.streams, h, Bidirectional);
    var one := StreamsOf(s.streams, h, Unidirectional);
    var m := s.sessions[h].AddStreams(Bidirectional, -|both|).AddStreams(Unidirectional, -|one|);
    RestreamKeepsAccounts(s, cfg, h, m, s.streams - (both + one), s.activeStreams - |both| - |one|);
  }

  lemma NothingToRelease(s: State, h: Handle)
    requires h in s.sessions && forall k :: k in s.streams ==> s.streams[k].session != h
    ensures ReleaseAll(s, h) == s
  {
    assert StreamsOf(s.streams, h, Bidirectional) == {} && StreamsOf(s.streams, h, Unidirectional) == {};
    assert s.sessions[h := s.sessions[h]] == s.sessions;
    assert s.streams - ({} + {}) == s.streams;
  }

  lemma ReleasedOneBidirectional(s: State, k: StreamId, h: Handle, both: set<StreamId>, one: set<StreamId>)
    requires h in s.sessions && k in s.streams && s.streams[k] == Stream(h, Bidirectional) && k in both
    ensures var t := ReleaseStream(s, k); h in t.sessions && Released(t, h, both - {k}, one) == Released(s, h, both, one)
  {
    MapDrop(s.streams, k, both, one);
    PutTwice(s.sessions, h, s.sessions[h].AddStreams(Bidirectional, -1), Released(s, h, both, one).sessions[h]);
  }

  lemma ReleasedOneUnidirectional(s: State, k: StreamId, h: Handle, both: set<StreamId>, one: set<StreamId>)
    requires h in s.sessions && k in s.streams && s.streams[k] == Stream(h, Unidirectional) && k in one
    ensures var t := ReleaseStream(s, k); h in t.sessions && Released(t, h, both, one - {k}) == Released(s, h, both, one)
  {
    MapDrop(s.streams, k, one, both);
    UnionOrder(both, one, k);
    PutTwice(s.sessions, h, s.sessions[h].AddStreams(Unidirectional, -1), Released(s, h, both, one).sessions[h]);
  }

  /** Releasing the session's streams one at a time is releasing them all. */
  lemma ReleaseOneThenAll(s: State, k: StreamId, h: Handle)
    requires h in s.sessions && k in s.streams && s.streams[k].session == h
    ensures var t := ReleaseStream(s, k);
            && h in t.sessions && ReleaseAll(t, h) == ReleaseAll(s, h)
            && t.streams == s.streams - {k}
  {
    hide StreamsOf, Released;
    StreamsOfDrop(s.streams, k, h, Bidirectional);
    StreamsOfDrop(s.streams, k, h, Unidirectional);
    var both := StreamsOf(s.streams, h, Bidirectional);
    var one := StreamsOf(s.streams, h, Unidirectional);
    assert s.streams[k] == Stream(h, s.streams[k].kind);
    if s.streams[k].kind.Bidirectional? {
      ReleasedOneBidirectional(s, k, h, both, one);
    } else {
      ReleasedOneUnidirectional(s, k, h, both, one);
    }
  }

  lemma UnionOrder(a: set<StreamId>, b: set<StreamId>, k: StreamId)
    ensures a + b == b + a && a + (b - {k}) == (b - {k}) + a
  {
  }

  lemma PutTwice(sessions: map<Handle, Session>, h: Handle, m: Session, m': Session)
    ensures sessions[h := m][h := m'] == sessions[h := m']
  {
  }

  lemma MapDrop(streams: map<StreamId, Stream>, k: StreamId, a: set<StreamId>, b: set<StreamId>)
    requires k in a
    ensures streams - {k} - ((a - {k}) + b) == streams - (a + b)
    ensures |a - {k}| == |a| - 1
  {
  }

  lemma ReadStreamKeepsAccounts(s: State, cfg: Config, h: Handle, kind: StreamKind, k: StreamId, aborted: bool)
    requires cfg.Valid() && Accounted(s, cfg) && h in s.sessions && k !in s.streams
    ensures Accounted(ReadStream(s, cfg, h, kind, k, aborted), cfg)
  {
    hide Accounted, Submit, SoundNext, Track;
    var m := s.sessions[h];
    if !m.Reading() {
      PumpEndKeepsAccounts(s, cfg, h, StreamPump(kind));
    } else if s.activeStreams >= cfg.maxStreams || m.Streams(kind) >= cfg.MaxStreams(kind) {
    } else if aborted {
      SubmitNothingElse(s, cfg, h);
    } else {
      TrackKeepsAccounts(s, cfg, h, kind, k);
      SubmitNothingElse(Track(s, h, kind, k), cfg, h) by {
        TrackKeepsSession(s, h, kind, k);
      }
    }
  }

  lemma TrackKeepsSession(s: State, h: Handle, kind: StreamKind, k: StreamId)
    requires h in s.sessions
    ensures h in Track(s, h, kind, k).sessions
  {
  }

  lemma SubmitNothingElse(s: State, cfg: Config, h: Handle)
    requires cfg.Valid() && Accounted(s, cfg) && h in s.sessions
    ensures Accounted(Submit(s, cfg, h, 0), cfg)
  {
    hide Accounted, Submit, SessionOk;
    SessionIsOk(s, cfg, h);
    assert SoundNext(s.sessions[h], s.sessions[h], cfg);
    assert Put(s, h, s.sessions[h]) == s;
    SubmitKeepsAccounts(s, cfg, h, s.sessions[h], 0);
  }

  // ----- emptying a session -----

  /** The pool after the session's context aborts and its scheduler queue is discarded. */
  function Emptied(s: State, cfg: Config, h: Handle): Pool
    requires h in s.sessions
  {
    SettleAll(AbandonSession(s, cfg, h), s.sessions[h].tasks.pending)
  }

  function EmptiedBytes(s: State, cfg: Config, h: Handle): nat
    requires h in s.sessions
  {
    BytesOf(AbandonSession(s, cfg, h).work, s.sessions[h].tasks.pending)
  }

  function EmptiedTasks(m: Session): T.Core<WorkId> {
    T.Core(m.tasks.active, [], false)
  }

  lemma PendingIsQueued(h: Handle, m: Session, work: map<WorkId, Work>, limits: T.Limits)
    requires SlotOk(h, m, work, limits)
    ensures QueuedFor(work, m.tasks.pending, h) && B.Distinct(m.tasks.pending)
  {
    assert forall w: WorkId :: w in m.tasks.pending ==> QueuedIn(work, w, h);
  }

  /** A session's scheduler queue is still its queue after its context has aborted. */
  lemma AbandonedQueue(s: State, cfg: Config, h: Handle)
    requires Accounted(s, cfg) && h in s.sessions
    ensures QueuedFor(AbandonSession(s, cfg, h).work, s.sessions[h].tasks.pending, h)
    ensures B.Distinct(s.sessions[h].tasks.pending)
  {
    hide Accounted, SlotOk, QueuedFor, B.Distinct, AbandonSession, Pools.Inv;
    AbandonSessionEffect(s, cfg, h);
    AdmissionIsWork(s, cfg, h);
    SameChargesSlot(s.pool.work, AbandonSession(s, cfg, h).work, h, s.sessions[h], cfg.tasks);
    PendingIsQueued(h, s.sessions[h], AbandonSession(s, cfg, h).work, cfg.tasks);
  }

  lemma EmptiedSlot(h: Handle, m: Session, a: map<WorkId, Work>, b: map<WorkId, Work>, limits: T.Limits)
    requires SlotOk(h, m, a, limits) && Without(a, b, m.tasks.pending)
    requires Sum(b, ActiveIn(h)) == Sum(a, ActiveIn(h))
    requires QueuedFor(a, m.tasks.pending, h)
    ensures forall m': Session :: m'.tasks == EmptiedTasks(m) && m'.admission == m.admission ==> SlotOk(h, m', b, limits)
  {
    assert forall w: WorkId :: !QueuedIn(b, w, h);
    forall w: WorkId
      ensures AdmissionOf(b, w, h) <==> AdmissionOf(a, w, h)
    {
      assert w in m.tasks.pending ==> QueuedIn(a, w, h);
    }
    hide QueuedIn, AdmissionOf, Without, QueuedFor;
  }

  lemma EmptiedEffect(s: State, cfg: Config, h: Handle)
    requires Accounted(s, cfg) && h in s.sessions
    ensures var p := Emptied(s, cfg, h);
            && Pools.Inv(p, cfg.handlers)
            && OthersKept(s.pool.work, p.work, h)
            && (forall w :: w in p.work ==> w in s.pool.work && p.work[w].session == s.pool.work[w].session)
            && (forall w :: w in p.work && p.work[w].phase.Waiting? ==> p.work[w].session != h && p.work[w] == s.pool.work[w])
            && Sum(p.work, ByteWeight) == Sum(s.pool.work, ByteWeight) - EmptiedBytes(s, cfg, h)
            && (forall m: Session :: m.tasks == EmptiedTasks(s.sessions[h]) && m.admission == s.sessions[h].admission ==>
                  SlotOk(h, m, p.work, cfg.tasks))
  {
    hide Accounted, Pools.Inv, SlotOk, OthersKept, QueuedFor, B.Distinct, AbandonSession, SettleAll, BytesOf;
    var m := s.sessions[h];
    var a := AbandonSession(s, cfg, h);
    AbandonSessionEffect(s, cfg, h);
    AdmissionIsWork(s, cfg, h);
    SameChargesSlot(s.pool.work, a.work, h, m, cfg.tasks);
    SameChargesKeepsOthers(s.pool.work, a.work, h);
    PendingIsQueued(h, m, a.work, cfg.tasks);
    SettleAllEffect(a, cfg.handlers, m.tasks.pending, h);
    var p := Emptied(s, cfg, h);
    EmptiedSlot(h, m, a.work, p.work, cfg.tasks);
    OthersKeptTrans(s.pool.work, a.work, p.work, h);
  }

  lemma ForcedIsSound(m: Session, cfg: Config)
    requires SessionOk(m, cfg)
    ensures var m' := ForcedOut(m);
            && (m.intakeAborted ==> SessionOk(m', cfg))
            && Steady(m, m')
            && (Gone(m) ==> Gone(m'))
            && FeedWeight(m') == FeedWeight(m)
            && m'.tasks == EmptiedTasks(m) && m'.admission == m.admission && m'.ContextAborted()
  {
    F.WokenIsOk(m.feed, cfg.queueSize);
    hide F.Ok;
  }

  lemma ForceKeepsAccounts(s: State, cfg: Config, h: Handle)
    requires Accounted(s, cfg) && h in s.sessions && s.sessions[h].intakeAborted && h in s.outstanding
    ensures Accounted(Force(s, cfg, h), cfg)
  {
    hide Accounted, Pools.Inv, SlotOk, OthersKept, SessionOk, Gone, Steady, FeedWeight, NoAbortedWaiters, Emptied, EmptiedBytes;
    var m := s.sessions[h];
    var m' := ForcedOut(m);
    var p := Emptied(s, cfg, h);
    assert Force(s, cfg, h) == Put(s, h, m').(pool := p, queuedBytes := s.queuedBytes - EmptiedBytes(s, cfg, h)) by {
      ForceIsEmptied(s, cfg, h);
    }
    SessionIsOk(s, cfg, h);
    PoolIsOk(s, cfg);
    ForcedIsSound(m, cfg);
    EmptiedEffect(s, cfg, h);
    AbandonedIsCalm(s.pool.work, p.work, s.sessions, h, m');
    BytesAreCharged(s, cfg);
    hide Force, EmptiedTasks, ForcedOut;
    WorkMoveKeepsAccounts(s, cfg, h, m', p, s.queuedBytes - EmptiedBytes(s, cfg, h));
  }

  lemma ForceIsEmptied(s: State, cfg: Config, h: Handle)
    requires h in s.sessions
    ensures Force(s, cfg, h) ==
            Put(s, h, ForcedOut(s.sessions[h]))
              .(pool := Emptied(s, cfg, h), queuedBytes := s.queuedBytes - EmptiedBytes(s, cfg, h))
  {
  }

  // ----- finalizing -----

  lemma FinalIsSound(m: Session, cfg: Config)
    requires SessionOk(m, cfg)
    ensures SessionOk(Final(m), cfg)
    ensures FeedWeight(Final(m)) == 0 && m.feed.bytes == FeedWeight(m)
  {
    F.ClearedIsOk(m.feed, cfg.queueSize);
    assert m.feed.bytes == FeedWeight(m);
    hide F.Ok;
  }

  lemma FinalRegistered(ids: map<SessionId, Handle>, outstanding: set<Handle>, sessions: map<Handle, Session>,
                        maxSessions: nat, h: Handle)
    requires Registered(ids, outstanding, sessions, maxSessions) && h in sessions && !sessions[h].finalized
    ensures Registered(ids - {sessions[h].id}, outstanding, sessions[h := Final(sessions[h])], maxSessions)
    ensures h in outstanding
  {
  }

  lemma FinalIsElsewhereTheSame(m: Session)
    ensures Final(m).ip == m.ip && Final(m).intakeAborted
    ensures Final(m).bidirectional == m.bidirectional && Final(m).unidirectional == m.unidirectional
    ensures Final(m).signalAborted == m.signalAborted
    ensures Final(m).tasks == EmptiedTasks(m) && Final(m).admission == m.admission
  {
  }

  lemma FinalServerOk(server: Srv.Server, ids: map<SessionId, Handle>, outstanding: set<Handle>,
                      sessions: map<Handle, Session>, h: Handle, m: Session, id: SessionId)
    requires ServerOk(server, ids, outstanding, sessions) && h in sessions && m.intakeAborted
    ensures ServerOk(server, ids - {id}, outstanding, sessions[h := m])
  {
    hide Srv.Inv;
  }

  lemma FinalizeIsEmptied(s: State, cfg: Config, h: Handle)
    requires h in s.sessions && !s.sessions[h].finalized
    ensures Finalize(s, cfg, h) ==
            Put(s, h, Final(s.sessions[h]))
              .(ids := s.ids - {s.sessions[h].id}, pool := Emptied(s, cfg, h),
                queuedBytes := s.queuedBytes - s.sessions[h].feed.bytes - EmptiedBytes(s, cfg, h))
  {
  }

  /** The last part of finalizing, after intake has stopped and the scheduler has been emptied. */
  function RecordClosed(s: State, h: Handle, admission: Option<WorkId>, pumps: set<Pump>): State
    requires h in s.sessions
  {
    var m := s.sessions[h];
    Put(s, h, m.(feed := F.Cleared(m.feed), finalized := true,
                 retirement := Some(Retirement(admission, pumps, false, false, false))))
      .(ids := s.ids - {m.id}, queuedBytes := s.queuedBytes - m.feed.bytes)
  }

  lemma FinalizeTwice(s: State, cfg: Config, h: Handle)
    requires h in s.sessions && s.sessions[h].finalized
    ensures Finalize(s, cfg, h) == s
  {
  }

  /** Finalizing is stopping intake, then emptying the session, then closing its record. */
  lemma FinalizeInParts(s: State, cfg: Config, h: Handle)
    requires h in s.sessions && !s.sessions[h].finalized
    ensures var a := StopIntake(s, h); var b := Force(a, cfg, h); var m := s.sessions[h];
            && a.pool == s.pool && h in a.sessions && a.sessions[h].tasks.pending == m.tasks.pending
            && AbandonSession(a, cfg, h) == AbandonSession(s, cfg, h)
            && h in b.sessions
            && Finalize(s, cfg, h) == RecordClosed(b, h, m.admission, m.pumps)
  {
    hide AbandonAll, WaitersOf, SettleAll, BytesOf;
    var a := StopIntake(s, h);
    var b := Force(a, cfg, h);
    var m := s.sessions[h];
    assert b.sessions == s.sessions[h := b.sessions[h]];
    assert Finalize(s, cfg, h).sessions == RecordClosed(b, h, m.admission, m.pumps).sessions;
  }

  lemma FinalizeKeepsAccounts(s: State, cfg: Config, h: Handle)
    requires Accounted(s, cfg) && h in s.sessions
    ensures Accounted(Finalize(s, cfg, h), cfg)
  {
    if !s.sessions[h].finalized {
      FinalizeLiveKeepsAccounts(s, cfg, h);
    }
  }

  lemma FinalizeLiveKeepsAccounts(s: State, cfg: Config, h: Handle)
    requires Accounted(s, cfg) && h in s.sessions && !s.sessions[h].finalized
    ensures Accounted(Finalize(s, cfg, h), cfg)
  {
    hide Pools.Inv, Placed, NoAbortedWaiters, Charged, AllOk, Registered, IpCounted, StreamsCounted, ServerOk;
    hide SlotOk, OthersKept, SessionOk, Gone, FeedWeight, Emptied, EmptiedBytes, EmptiedTasks, Final, Finalize;
    var m := s.sessions[h];
    var m' := Final(m);
    var p := Emptied(s, cfg, h);
    FinalizeIsEmptied(s, cfg, h);
    SessionIsOk(s, cfg, h);
    FinalIsSound(m, cfg);
    FinalIsElsewhereTheSame(m);
    EmptiedEffect(s, cfg, h);
    FinalRegistered(s.ids, s.outstanding, s.sessions, cfg.maxSessions, h);
    MovePlaced(s.pool.work, p.work, s.sessions, s.outstanding, cfg.tasks, h, m');
    AbandonedIsCalm(s.pool.work, p.work, s.sessions, h, m');
    FinalCharged(s, p, h, m', EmptiedBytes(s, cfg, h));
    PutAllOk(s.sessions, s.outstanding, cfg, h, m');
    PutIpCounted(s.ip, s.outstanding, s.sessions, cfg.ip, h, m');
    PutStreams(s.streams, s.activeStreams, s.sessions, cfg, h, m');
    FinalServerOk(s.server, s.ids, s.outstanding, s.sessions, h, m', m.id);
  }

  lemma FinalCharged(s: State, p: Pool, h: Handle, m: Session, bytes: nat)
    requires Charged(s.queuedBytes, s.pool.work, s.sessions) && h in s.sessions
    requires FeedWeight(m) == 0 && s.sessions[h].feed.bytes == FeedWeight(s.sessions[h])
    requires Sum(p.work, ByteWeight) == Sum(s.pool.work, ByteWeight) - bytes
    ensures Charged(s.queuedBytes - s.sessions[h].feed.bytes - bytes, p.work, s.sessions[h := m])
  {
    hide FeedWeight;
    SumPut(s.sessions, FeedWeight, h, m);
  }

  // ----- the session's own signal -----

  function Marked(s: State, h: Handle): State
    requires h in s.sessions
  {
    Put(s, h, s.sessions[h].(signalAborted := true))
  }

  lemma FinalizeKeepsSessions(s: State, cfg: Config, h: Handle)
    requires h in s.sessions
    ensures var t := Finalize(s, cfg, h);
            && t.sessions.Keys == s.sessions.Keys && t.outstanding == s.outstanding && t.server == s.server
            && t.streams == s.streams && t.activeStreams == s.activeStreams
            && t.sessions[h].finalized
            && t.ip == s.ip
            && t.sessions == s.sessions[h := t.sessions[h]]
  {
    hide AbandonSession, SettleAll, BytesOf;
  }

  /** Marking the signal first or last makes no difference. */
  lemma FinalizeMarked(s: State, cfg: Config, h: Handle)
    requires h in s.sessions
    ensures h in Finalize(s, cfg, h).sessions
    ensures Finalize(Marked(s, h), cfg, h) == Marked(Finalize(s, cfg, h), h)
  {
    hide AbandonAll, WaitersOf, SettleAll, BytesOf;
    var a := Finalize(Marked(s, h), cfg, h);
    var b := Marked(Finalize(s, cfg, h), h);
    assert a.sessions == b.sessions;
  }

  lemma ReleaseMarked(s: State, h: Handle)
    requires h in s.sessions
    ensures h in ReleaseAll(s, h).sessions
    ensures ReleaseAll(Marked(s, h), h) == Marked(ReleaseAll(s, h), h)
  {
    hide StreamsOf;
    assert ReleaseAll(Marked(s, h), h).sessions == Marked(ReleaseAll(s, h), h).sessions;
  }

  lemma MarkedIsSound(m: Session, cfg: Config)
    requires SessionOk(m, cfg) && m.finalized
    ensures var m' := m.(signalAborted := true);
            && SessionOk(m', cfg) && (Gone(m) ==> Gone(m')) && m.ContextAborted()
            && FeedWeight(m') == FeedWeight(m)
  {
    hide F.Ok;
  }

  lemma MarkedStreams(streams: map<StreamId, Stream>, active: int, sessions: map<Handle, Session>, cfg: Config, h: Handle)
    requires StreamsCounted(streams, active, sessions, cfg) && h in sessions
    requires forall k :: k in streams ==> streams[k].session != h
    ensures StreamsCounted(streams, active, sessions[h := sessions[h].(signalAborted := true)], cfg)
  {
    hide StreamsOf, Config.MaxStreams;
  }

  lemma MarkKeepsAccounts(s: State, cfg: Config, h: Handle)
    requires Accounted(s, cfg) && h in s.sessions && s.sessions[h].finalized
    requires forall k :: k in s.streams ==> s.streams[k].session != h
    ensures Accounted(Marked(s, h), cfg)
  {
    hide Pools.Inv, Placed, NoAbortedWaiters, Charged, AllOk, Registered, IpCounted, StreamsCounted, ServerOk;
    hide SessionOk, Gone, FeedWeight;
    SessionIsOk(s, cfg, h);
    var m := s.sessions[h].(signalAborted := true);
    MarkedIsSound(s.sessions[h], cfg);
    PutPlaced(s.pool.work, s.sessions, s.outstanding, cfg.tasks, h, m);
    PutWaiters(s.pool.work, s.sessions, h, m);
    PutCharged(s.queuedBytes, s.pool.work, s.sessions, h, m);
    PutAllOk(s.sessions, s.outstanding, cfg, h, m);
    PutRegistered(s.ids, s.outstanding, s.sessions, cfg.maxSessions, h, m);
    PutIpCounted(s.ip, s.outstanding, s.sessions, cfg.ip, h, m);
    MarkedStreams(s.streams, s.activeStreams, s.sessions, cfg, h);
    PutServerOk(s.server, s.ids, s.outstanding, s.sessions, h, m);
  }

  lemma ReleaseKeepsFinal(s: State, h: Handle)
    requires h in s.sessions
    ensures h in ReleaseAll(s, h).sessions && ReleaseAll(s, h).sessions[h].finalized == s.sessions[h].finalized
  {
    hide StreamsOf;
  }

  lemma AbortKeepsAccounts(s: State, cfg: Config, h: Handle)
    requires Accounted(s, cfg) && h in s.sessions
    ensures Accounted(AbortSignal(s, cfg, h), cfg)
  {
    hide Accounted, Finalize, ReleaseAll, Marked;
    FinalizeKeepsAccounts(s, cfg, h);
    FinalizeKeepsSessions(s, cfg, h);
    FinalizeMarked(s, cfg, h);
    var t := Finalize(s, cfg, h);
    ReleaseAllKeepsAccounts(t, cfg, h);
    ReleaseMarked(t, h);
    ReleaseKeepsFinal(t, h);
    MarkKeepsAccounts(ReleaseAll(t, h), cfg, h);
    AbortIsMarked(s, cfg, h);
  }

  lemma AbortIsMarked(s: State, cfg: Config, h: Handle)
    requires h in s.sessions
    ensures h in Marked(s, h).sessions && h in Finalize(Marked(s, h), cfg, h).sessions
    ensures AbortSignal(s, cfg, h) == ReleaseAll(Finalize(Marked(s, h), cfg, h), h)
  {
    hide Finalize, ReleaseAll;
    FinalizeKeepsSessions(Marked(s, h), cfg, h);
  }

  // ----- retiring -----

  lemma ReadyIsGone(m: Session, cfg: Config)
    requires SessionOk(m, cfg) && CanRetire(m)
    ensures Gone(m)
  {
    hide F.Ok;
  }

  lemma IdleHasNoWork(h: Handle, m: Session, work: map<WorkId, Work>, limits: T.Limits)
    requires SlotOk(h, m, work, limits) && m.tasks.Idle() && m.admission == None
    ensures forall w :: w in work ==> work[w].session != h
  {
    forall w | w in work
      ensures work[w].session != h
    {
      if work[w].session == h {
        assert !QueuedIn(work, w, h);
        assert !AdmissionOf(work, w, h);
        SumWitness(work, ActiveIn(h), w);
        assert false;
      }
    }
  }

  lemma RetiredPlaced(work: map<WorkId, Work>, sessions: map<Handle, Session>, outstanding: set<Handle>,
                      limits: T.Limits, h: Handle)
    requires Placed(work, sessions, outstanding, limits) && h in sessions && Gone(sessions[h])
    ensures Placed(work, sessions, outstanding - {h}, limits)
  {
    IdleHasNoWork(h, sessions[h], work, limits);
    hide SlotOk;
  }

  lemma RetiredIp(table: IP.Table, outstanding: set<Handle>, sessions: map<Handle, Session>, limits: IP.Limits,
                  h: Handle, now: int)
    requires IpCounted(table, outstanding, sessions, limits) && h in outstanding && h in sessions
    ensures IpCounted(IP.Release(table, sessions[h].ip, now), outstanding - {h}, sessions, limits)
    ensures 0 < IP.Active(table, sessions[h].ip)
  {
    hide IP.Bounded, IP.Release, IP.Active;
    var ip := sessions[h].ip;
    assert h in FromIp(outstanding, sessions, ip);
    forall a
      ensures IP.Active(IP.Release(table, ip, now), a) == |FromIp(outstanding - {h}, sessions, a)|
    {
      IP.ReleaseCounts(table, limits, ip, now, a);
      assert FromIp(outstanding - {h}, sessions, a) ==
             if a == ip then FromIp(outstanding, sessions, a) - {h} else FromIp(outstanding, sessions, a);
    }
    IP.ReleaseCounts(table, limits, ip, now, ip);
  }

  lemma RetiredServerOk(server: Srv.Server, ids: map<SessionId, Handle>, outstanding: set<Handle>,
                        sessions: map<Handle, Session>, h: Handle)
    requires ServerOk(server, ids, outstanding, sessions)
    ensures ServerOk(server, ids, outstanding - {h}, sessions)
  {
    hide Srv.Inv;
  }

  lemma RetiredRegistered(ids: map<SessionId, Handle>, outstanding: set<Handle>, sessions: map<Handle, Session>,
                          maxSessions: nat, h: Handle)
    requires Registered(ids, outstanding, sessions, maxSessions) && h in outstanding && h in sessions
    requires sessions[h].finalized
    ensures Registered(ids, outstanding - {h}, sessions, maxSessions)
  {
    assert |outstanding - {h}| == |outstanding| - 1;
  }

  lemma RetiredAllOk(sessions: map<Handle, Session>, outstanding: set<Handle>, cfg: Config, h: Handle)
    requires AllOk(sessions, outstanding, cfg) && h in sessions && Gone(sessions[h])
    ensures AllOk(sessions, outstanding - {h}, cfg)
  {
    hide SessionOk, Gone;
  }

  lemma RetireKeepsAccounts(s: State, cfg: Config, h: Handle, now: int)
    requires Accounted(s, cfg) && h in s.sessions && CanRetire(s.sessions[h])
    ensures Accounted(Retire(s, h, now), cfg)
    ensures Gone(s.sessions[h])
  {
    hide Pools.Inv, Placed, NoAbortedWaiters, Charged, AllOk, Registered, IpCounted, StreamsCounted, ServerOk;
    hide SessionOk, IP.Release;
    SessionIsOk(s, cfg, h);
    ReadyIsGone(s.sessions[h], cfg);
    if h in s.outstanding {
      RetiredPlaced(s.pool.work, s.sessions, s.outstanding, cfg.tasks, h);
      RetiredAllOk(s.sessions, s.outstanding, cfg, h);
      RetiredRegistered(s.ids, s.outstanding, s.sessions, cfg.maxSessions, h);
      RetiredIp(s.ip, s.outstanding, s.sessions, cfg.ip, h, now);
      RetiredServerOk(s.server, s.ids, s.outstanding, s.sessions, h);
    }
  }

  // ----- walking all sessions -----

  /** How a walk over the sessions moves the state: nobody comes or goes, and nothing is reopened. */
  ghost predicate Closing(s: State, t: State) {
    && t.server == s.server && t.outstanding == s.outstanding && t.sessions.Keys == s.sessions.Keys
    && (forall h :: h in s.sessions && s.sessions[h].intakeAborted ==> t.sessions[h].intakeAborted)
    && (forall h :: h in s.sessions && s.sessions[h].finalized ==> t.sessions[h].finalized)
    && (forall id :: id in t.ids ==> id in s.ids && t.ids[id] == s.ids[id])
  }

  ghost predicate IntakeStoppedAt(s: State, h: Handle) {
    h in s.sessions ==> s.sessions[h].intakeAborted
  }

  ghost predicate FinalizedAt(s: State, h: Handle) {
    h in s.sessions ==> s.sessions[h].finalized
  }

  lemma ClosingTrans(s: State, t: State, u: State)
    requires Closing(s, t) && Closing(t, u)
    ensures Closing(s, u)
  {
  }

  lemma ClosingKeeps(s: State, t: State, h: Handle)
    requires Closing(s, t)
    ensures IntakeStoppedAt(s, h) ==> IntakeStoppedAt(t, h)
    ensures FinalizedAt(s, h) ==> FinalizedAt(t, h)
    ensures h in t.sessions <==> h in s.sessions
  {
    assert h in t.sessions.Keys <==> h in s.sessions.Keys;
  }

  lemma StopIntakeCloses(s: State, h: Handle)
    requires h in s.sessions
    ensures Closing(s, StopIntake(s, h)) && IntakeStoppedAt(StopIntake(s, h), h)
  {
  }

  lemma ForceCloses(s: State, cfg: Config, h: Handle)
    requires h in s.sessions
    ensures Closing(s, Force(s, cfg, h))
  {
    hide AbandonSession, SettleAll, BytesOf;
  }

  lemma FinalizeCloses(s: State, cfg: Config, h: Handle)
    requires h in s.sessions
    ensures Closing(s, Finalize(s, cfg, h)) && FinalizedAt(Finalize(s, cfg, h), h)
  {
    hide AbandonSession, SettleAll, BytesOf;
  }

  lemma ClosingItself(s: State)
    ensures Closing(s, s)
  {
  }

  lemma {:induction false} StopIntakeAllEffect(s: State, cfg: Config, order: seq<Handle>)
    requires Accounted(s, cfg)
    ensures var t := StopIntakeAll(s, order);
            && Accounted(t, cfg) && Closing(s, t)
            && (forall h :: h in order ==> IntakeStoppedAt(t, h))
    decreases |order|
  {
    hide Accounted, StopIntake, Closing, IntakeStoppedAt;
    ClosingItself(s);
    if order != [] {
      var h := order[0];
      var s1 := if h in s.sessions then StopIntake(s, h) else s;
      if h in s.sessions {
        StopIntakeKeepsAccounts(s, cfg, h);
        StopIntakeCloses(s, h);
      } else {
        UnknownIsStopped(s, h);
      }
      StopIntakeAllEffect(s1, cfg, order[1..]);
      var t := StopIntakeAll(s, order);
      ClosingTrans(s, s1, t);
      ClosingKeeps(s1, t, h);
      assert order == [h] + order[1..];
    }
  }

  lemma UnknownIsStopped(s: State, h: Handle)
    requires h !in s.sessions
    ensures IntakeStoppedAt(s, h) && FinalizedAt(s, h)
  {
  }

  lemma {:induction false} ForceAllEffect(s: State, cfg: Config, order: seq<Handle>)
    requires Accounted(s, cfg)
    requires forall h :: h in order ==> h in s.outstanding && h in s.sessions && IntakeStoppedAt(s, h)
    ensures var t := ForceAll(s, cfg, order); Accounted(t, cfg) && Closing(s, t)
    decreases |order|
  {
    hide Accounted, Force, Closing;
    ClosingItself(s);
    if order != [] {
      var h := order[0];
      assert h in order;
      ForceKeepsAccounts(s, cfg, h);
      ForceCloses(s, cfg, h);
      var s1 := Force(s, cfg, h);
      forall k | k in order[1..]
        ensures k in s1.outstanding && k in s1.sessions && IntakeStoppedAt(s1, k)
      {
        assert k in order;
        ClosingKeeps(s, s1, k);
        ClosingSame(s, s1);
      }
      ForceAllEffect(s1, cfg, order[1..]);
      ClosingTrans(s, s1, ForceAll(s, cfg, order));
    }
  }

  lemma ClosingSame(s: State, t: State)
    requires Closing(s, t)
    ensures t.server == s.server && t.outstanding == s.outstanding
  {
  }

  lemma {:induction false} FinalizeAllEffect(s: State, cfg: Config, order: seq<Handle>)
    requires Accounted(s, cfg)
    ensures var t := FinalizeAll(s, cfg, order);
            && Accounted(t, cfg) && Closing(s, t)
            && (forall h :: h in order ==> FinalizedAt(t, h))
    decreases |order|
  {
    hide Accounted, Finalize, Closing, FinalizedAt;
    ClosingItself(s);
    if order != [] {
      var h := order[0];
      var s1 := if h in s.sessions then Finalize(s, cfg, h) else s;
      if h in s.sessions {
        FinalizeKeepsAccounts(s, cfg, h);
        FinalizeCloses(s, cfg, h);
      } else {
        UnknownIsStopped(s, h);
      }
      FinalizeAllEffect(s1, cfg, order[1..]);
      var t := FinalizeAll(s, cfg, order);
      ClosingTrans(s, s1, t);
      ClosingKeeps(s1, t, h);
      assert order == [h] + order[1..];
    }
  }

  /** A forced stop may be applied to this session. */
  ghost predicate Forceable(s: State, h: Handle) {
    h in s.outstanding && h in s.sessions && s.sessions[h].intakeAborted
  }

  lemma ForceableStays(s: State, cfg: Config, h: Handle, order: seq<Handle>)
    requires h in order && forall k :: k in order ==> Forceable(s, k)
    ensures h in s.sessions && s.sessions[h].intakeAborted && h in s.outstanding
    ensures forall k :: k in order ==> Forceable(Force(s, cfg, h), k)
  {
    hide Force, Closing;
    ForceCloses(s, cfg, h);
    forall k | k in order
      ensures Forceable(Force(s, cfg, h), k)
    {
      assert Forceable(s, k);
      ClosingForceable(s, Force(s, cfg, h), k);
    }
  }

  lemma ClosingForceable(s: State, t: State, h: Handle)
    requires Closing(s, t) && Forceable(s, h)
    ensures Forceable(t, h)
  {
    assert h in t.sessions.Keys;
  }

  /** After every outstanding session's intake has stopped, every one of them may be forced. */
  lemma StopMakesForceable(s: State, cfg: Config, order: seq<Handle>)
    requires Accounted(s, cfg) && forall h :: h in order <==> h in s.outstanding
    ensures var t := StopIntakeAll(s, order); Accounted(t, cfg) && forall h :: h in order ==> Forceable(t, h)
  {
    hide Accounted, StopIntakeAll;
    StopIntakeAllEffect(s, cfg, order);
    OutstandingIsKnown(s, cfg);
  }

  lemma OutstandingIsKnown(s: State, cfg: Config)
    requires Accounted(s, cfg)
    ensures s.outstanding <= s.sessions.Keys
  {
    hide Pools.Inv, NoAbortedWaiters, Charged, AllOk, Registered, IpCounted, StreamsCounted, ServerOk, SlotOk;
  }
}
