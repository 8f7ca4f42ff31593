/**
  Native streams and their half-close lifecycle
  (packages/driver-rwebtransport/src/stream.adapter.ts:76-362, session.adapter.ts:151-161, 252-282, 361-391,
  driver.ts:135-142).

  `Streams` is one stream as a value, and all streams of all sessions as a transition system whose
  events are the callbacks of the web streams, in any order and any number. `StreamAdapters` holds the
  objects.
*/
module Streams {
  /** One half. `winding` says that the bridge has asked the native half to end: `stopPromise` of a
      readable half, `resetPromise` of a writable one. Only a writable half is ever `closing`. */
  datatype Half = Absent | Half(finished: bool, winding: bool, closing: bool)

  const Untouched := Half(false, false, false)

  /** `closes` counts the calls of `metrics.streamClosed`. */
  datatype Stream = Stream(remaining: nat, closed: bool, closes: nat, readable: Half, writable: Half)

  datatype Shape = Receive | Send | Both

  function Parts(shape: Shape): nat {
    if shape.Both? then 2 else 1
  }

  function Fresh(shape: Shape): Stream {
    Stream(Parts(shape), false, 0, if shape.Send? then Absent else Untouched, if shape.Receive? then Absent else Untouched)
  }

  /** The abort listener of the readable bridge. */
  function ReadableAborted(h: Half): Half {
    if h.Absent? || h.finished then h else h.(winding := true)
  }

  /** The abort listener of the writable bridge: a session that has ended, or a reset under way, leaves
      nothing to wait for. */
  function WritableAborted(h: Half, sessionEnded: bool): Half {
    if h.Absent? || h.finished || h.closing then h
    else if h.winding || sessionEnded then h.(finished := true)
    else h.(winding := true)
  }

  /** `StreamLifecycle.abort`, with the listeners its signal runs. */
  function Abort(s: Stream, sessionEnded: bool): Stream {
    if s.closed then s
    else
      Stream(s.remaining, true, s.closes + 1, ReadableAborted(s.readable), WritableAborted(s.writable, sessionEnded))
  }

  /** `finishPart`; an abort without a reason reads as the end of a session. */
  function FinishPart(s: Stream): Stream {
    if s.closed then s
    else
      var remaining := if s.remaining == 0 then 0 else s.remaining - 1;
      var t := s.(remaining := remaining);
      if remaining == 0 then Abort(t, true) else t
  }

  function FinishReadable(s: Stream, counts: bool): Stream {
    if s.readable.Absent? || s.readable.finished then s
    else
      var t := s.(readable := s.readable.(finished := true));
      if counts then FinishPart(t) else t
  }

  function FinishWritable(s: Stream): Stream {
    if s.writable.Absent? || s.writable.finished then s
    else FinishPart(s.(writable := s.writable.(finished := true)))
  }

  /** What can happen to a stream, segment by segment. */
  datatype Callback =
    | ReadEnded            // a read is done, or a cancel or a stop settles either way
    | ReadFailed(sessionEnded: bool)
    | ReaderRejected(sessionEnded: bool)
    | WriterEnded          // the writer closes, or an abort or a reset settles either way
    | WriterRejected(sessionEnded: bool)
    | WriteFailed(sessionEnded: bool)
    | CloseCalled
    | CloseFailed(sessionEnded: bool)
    | StoppedByCaller      // `stop` or `reset` of the adapter

  function Apply(s: Stream, c: Callback): Stream {
    match c
    case ReadEnded => FinishReadable(s, true)
    case ReadFailed(ended) => if s.readable.Absent? then s else FinishReadable(Abort(s, ended), false)
    case ReaderRejected(ended) =>
      if s.readable.Absent? || s.readable.finished then s else Abort(FinishReadable(s, false), ended)
    case WriterEnded => FinishWritable(s)
    case WriterRejected(ended) =>
      if s.writable.Absent? || s.writable.finished || s.writable.closing then s else FinishWritable(Abort(s, ended))
    case WriteFailed(ended) => if s.writable.Absent? then s else FinishWritable(Abort(s, ended))
    case CloseCalled => if s.writable.Absent? then s else s.(writable := s.writable.(closing := true))
    case CloseFailed(ended) => if s.writable.Absent? then s else FinishWritable(Abort(s, ended))
    case StoppedByCaller => Abort(Winding(s), false)
  }

  /** Both bridges are asked to end; a writable half that is closing is left to close. */
  function Winding(s: Stream): Stream {
    s.(readable := if s.readable.Absent? then Absent else s.readable.(winding := true),
       writable := if s.writable.Absent? || s.writable.closing then s.writable else s.writable.(winding := true))
  }

  function Unfinished(h: Half): nat {
    if h.Absent? || h.finished then 0 else 1
  }

  /** Reported closed exactly if it is closed; an open lifecycle counts exactly its unfinished halves, and
      has one; and a closed one has asked every unfinished half to end. */
  predicate Ok(s: Stream) {
    && s.closes == (if s.closed then 1 else 0)
    && (!s.closed ==> s.remaining == Unfinished(s.readable) + Unfinished(s.writable) >= 1)
    && (s.closed && Unfinished(s.readable) == 1 ==> s.readable.winding)
    && (s.closed && Unfinished(s.writable) == 1 ==> s.writable.winding || s.writable.closing)
  }

  lemma FreshIsOk(shape: Shape, sessionEnded: bool)
    ensures Ok(Fresh(shape)) && Ok(Abort(Fresh(shape), sessionEnded))
    ensures !Fresh(shape).closed
    ensures Unfinished(Fresh(shape).readable) == (if shape.Send? then 0 else 1)
    ensures Unfinished(Fresh(shape).writable) == (if shape.Receive? then 0 else 1)
  {
  }

  lemma AbortIsOk(s: Stream, sessionEnded: bool)
    requires Ok(s)
    ensures Ok(Abort(s, sessionEnded)) && Abort(s, sessionEnded).closed
  {
  }

  lemma AbortClosesOnce(s: Stream, sessionEnded: bool)
    ensures var t := Abort(s, sessionEnded); t.closed && t.closes == if s.closed then s.closes else s.closes + 1
  {
  }

  /** Every callback, in every state, keeps a stream sound, and none reopens it. */
  lemma ApplyIsOk(s: Stream, c: Callback)
    requires Ok(s)
    ensures Ok(Apply(s, c))
    ensures s.closed ==> Apply(s, c).closed
  {
  }

  // ----- what closes a stream, and what each callback does to its halves -----

  /** Errors, and the caller's stop or reset, where the half they speak of can still be ended that way. */
  predicate CutsShort(s: Stream, c: Callback) {
    match c
    case ReadFailed(_) => s.readable.Half?
    case ReaderRejected(_) => Unfinished(s.readable) == 1
    case WriterRejected(_) => Unfinished(s.writable) == 1 && !s.writable.closing
    case WriteFailed(_) => s.writable.Half?
    case CloseFailed(_) => s.writable.Half?
    case StoppedByCaller => true
    case _ => false
  }

  /** An open stream is closed by exactly two kinds of callbacks: those that cut it short, and the end of
      its last unfinished half. A half-close of a stream with another half leaves it open. */
  lemma ClosesExactlyBy(s: Stream, c: Callback)
    requires Ok(s) && !s.closed
    ensures Apply(s, c).closed <==>
            || CutsShort(s, c)
            || (c.ReadEnded? && Unfinished(s.readable) == 1 && Unfinished(s.writable) == 0)
            || (c.WriterEnded? && Unfinished(s.writable) == 1 && Unfinished(s.readable) == 0)
  {
  }

  /** The reading half ends: the stream closes if and only if nothing is left to write, and otherwise the
      writing half is untouched. */
  lemma ReadingEnds(s: Stream)
    requires Ok(s) && !s.closed && Unfinished(s.readable) == 1
    ensures var t := Apply(s, ReadEnded);
            && Unfinished(t.readable) == 0
            && (t.closed <==> Unfinished(s.writable) == 0)
            && t.writable == s.writable
  {
  }

  lemma WritingEnds(s: Stream)
    requires Ok(s) && !s.closed && Unfinished(s.writable) == 1
    ensures var t := Apply(s, WriterEnded);
            && Unfinished(t.writable) == 0
            && (t.closed <==> Unfinished(s.readable) == 0)
            && t.readable == s.readable
  {
  }

  /** Whether the callback tells the abort listeners that the session has ended. */
  predicate TellsEnded(c: Callback) {
    match c
    case ReadFailed(ended) => ended
    case ReaderRejected(ended) => ended
    case _ => false
  }

  /** What every callback finishes: its own half, if it is one that finishes it; and, when an error of the
      readable half or a caller's stop closes the stream, a writable half that has nothing to wait for. A
      closed stream's halves still finish, each by its own callbacks, and no half starts again. */
  lemma FinishesExactly(s: Stream, c: Callback)
    requires Ok(s)
    ensures var t := Apply(s, c);
            && (Unfinished(t.readable) == 0 <==>
                  Unfinished(s.readable) == 0 || c.ReadEnded? || c.ReadFailed? || c.ReaderRejected?)
            && (Unfinished(t.writable) == 0 <==>
                  || Unfinished(s.writable) == 0
                  || c.WriterEnded? || c.WriteFailed? || c.CloseFailed?
                  || (c.WriterRejected? && !s.writable.closing)
                  || (!s.closed && t.closed && !s.writable.closing
                      && (s.writable.winding || c.StoppedByCaller? || TellsEnded(c))))
  {
  }

  /** A writable half is closing exactly from the caller's close on, which does nothing else; and a half that
      is not there never appears. */
  lemma ClosingExactly(s: Stream, c: Callback)
    ensures var t := Apply(s, c);
            && (t.readable.Half? <==> s.readable.Half?) && (t.writable.Half? <==> s.writable.Half?)
            && (t.writable.Half? ==> (t.writable.closing <==> s.writable.closing || c.CloseCalled?))
            && (c.CloseCalled? ==> t.closed == s.closed && t.readable == s.readable && t.remaining == s.remaining)
  {
  }

  // ----- all streams -----

  type SessionId = nat
  type StreamId = nat

  datatype Member = Member(session: SessionId, stream: Stream)

  /** The listeners a session holds, and whether `finish` has run. */
  datatype Session = Session(ended: bool, listeners: set<StreamId>)

  datatype Driver = Driver(sessions: map<SessionId, Session>, streams: map<StreamId, Member>, active: nat, total: nat)

  datatype Event =
    | SessionOpened(id: SessionId)
    | StreamAdapted(k: StreamId, id: SessionId, shape: Shape, sessionEnded: bool)
    | Happened(k: StreamId, callback: Callback)
    | SessionFinished(id: SessionId, sessionEnded: bool)

  predicate Enabled(d: Driver, e: Event) {
    match e
    case SessionOpened(id) => id !in d.sessions
    case StreamAdapted(k, id, _, _) => k !in d.streams && id in d.sessions
    case Happened(k, _) => k in d.streams && d.streams[k].session in d.sessions
    case SessionFinished(id, _) => id in d.sessions
  }

  /** `streamClosed`, so many times: the counter is clamped at zero. */
  function Less(active: nat, times: nat): nat {
    if times <= active then active - times else 0
  }

  /** One stream moves: its session forgets the listener and the counter falls if it closed. */
  function Move(d: Driver, k: StreamId, s: Stream): Driver
    requires k in d.streams && d.streams[k].session in d.sessions && d.streams[k].stream.closes <= s.closes
  {
    var m := d.streams[k];
    var session := d.sessions[m.session];
    var times := s.closes - m.stream.closes;
    d.(streams := d.streams[k := m.(stream := s)],
       sessions := d.sessions[m.session := if times == 0 then session else session.(listeners := session.listeners - {k})],
       active := Less(d.active, times))
  }

  /** All streams of a session after it has finished. */
  function Finished(streams: map<StreamId, Member>, mine: set<StreamId>, sessionEnded: bool): map<StreamId, Member> {
    map k | k in streams :: if k in mine then streams[k].(stream := Abort(streams[k].stream, sessionEnded)) else streams[k]
  }

  function Step(d: Driver, e: Event): Driver
    requires Enabled(d, e)
  {
    match e
    case SessionOpened(id) => d.(sessions := d.sessions[id := Session(false, {})])
    case StreamAdapted(k, id, shape, ended) =>
      var adapted := d.(streams := d.streams[k := Member(id, Fresh(shape))], active := d.active + 1, total := d.total + 1);
      var session := d.sessions[id];
      if session.ended then Move(adapted, k, Abort(Fresh(shape), ended))
      else adapted.(sessions := d.sessions[id := session.(listeners := session.listeners + {k})])
    case Happened(k, c) =>
      ClosesGrow(d.streams[k].stream, c);
      Move(d, k, Apply(d.streams[k].stream, c))
    case SessionFinished(id, ended) =>
      var session := d.sessions[id];
      if session.ended then d
      else
        d.(sessions := d.sessions[id := Session(true, {})],
           streams := Finished(d.streams, session.listeners, ended),
           active := Less(d.active, |session.listeners|))
  }

  lemma ClosesGrow(s: Stream, c: Callback)
    ensures s.closes <= Apply(s, c).closes <= s.closes + 1
  {
  }

  // ----- what every run keeps -----

  function OpenIn(streams: map<StreamId, Member>, id: SessionId): set<StreamId> {
    set k | k in streams && streams[k].session == id && !streams[k].stream.closed
  }

  function Open(streams: map<StreamId, Member>): set<StreamId> {
    set k | k in streams && !streams[k].stream.closed
  }

  ghost predicate StreamsOk(streams: map<StreamId, Member>) {
    forall k :: k in streams ==> Ok(streams[k].stream)
  }

  /** A session listens for exactly its open streams, and none of an ended session is open. */
  ghost predicate SessionsOk(sessions: map<SessionId, Session>, streams: map<StreamId, Member>) {
    && (forall k :: k in streams ==> streams[k].session in sessions)
    && (forall id :: id in sessions ==> sessions[id].listeners == OpenIn(streams, id))
    && (forall id :: id in sessions && sessions[id].ended ==> sessions[id].listeners == {})
  }

  ghost predicate Counted(active: nat, total: nat, streams: map<StreamId, Member>) {
    active == |Open(streams)| && total == |streams|
  }

  ghost predicate Inv(d: Driver) {
    StreamsOk(d.streams) && SessionsOk(d.sessions, d.streams) && Counted(d.active, d.total, d.streams)
  }

  lemma OpenPut(streams: map<StreamId, Member>, k: StreamId, m: Member)
    ensures Open(streams[k := m]) == if m.stream.closed then Open(streams) - {k} else Open(streams) + {k}
    ensures k in streams ==> |streams[k := m]| == |streams|
    ensures k !in streams ==> |streams[k := m]| == |streams| + 1
  {
    assert streams[k := m].Keys == streams.Keys + {k};
  }

  lemma OpenInPut(streams: map<StreamId, Member>, k: StreamId, m: Member, id: SessionId)
    requires k in streams ==> streams[k].session == m.session
    ensures OpenIn(streams[k := m], id) ==
            if id != m.session then OpenIn(streams, id)
            else if m.stream.closed then OpenIn(streams, id) - {k} else OpenIn(streams, id) + {k}
  {
  }

  lemma MoveKeepsSessions(d: Driver, k: StreamId, s: Stream)
    requires SessionsOk(d.sessions, d.streams) && k in d.streams
    requires d.streams[k].stream.closes <= s.closes
    requires s.closes == d.streams[k].stream.closes <==> s.closed == d.streams[k].stream.closed
    requires d.streams[k].stream.closed ==> s.closed
    ensures SessionsOk(Move(d, k, s).sessions, Move(d, k, s).streams)
  {
    var t := Move(d, k, s);
    var m := d.streams[k];
    forall id | id in t.sessions
      ensures t.sessions[id].listeners == OpenIn(t.streams, id)
    {
      OpenInPut(d.streams, k, m.(stream := s), id);
      assert d.sessions[id].listeners == OpenIn(d.streams, id);
      assert m.stream.closed ==> k !in OpenIn(d.streams, id);
      assert id == m.session && !m.stream.closed ==> k in OpenIn(d.streams, id);
    }
    hide OpenIn;
  }

  lemma MoveKeepsCount(d: Driver, k: StreamId, s: Stream)
    requires Counted(d.active, d.total, d.streams) && k in d.streams && d.streams[k].session in d.sessions
    requires Ok(s) && Ok(d.streams[k].stream) && (d.streams[k].stream.closed ==> s.closed)
    ensures var t := Move(d, k, s);
            && Counted(t.active, t.total, t.streams)
            && t.active == d.active - (s.closes - d.streams[k].stream.closes)
  {
    OpenPut(d.streams, k, d.streams[k].(stream := s));
    var open := Open(d.streams);
    assert !d.streams[k].stream.closed <==> k in open;
    assert k !in open ==> open - {k} == open;
    assert k in open ==> open + {k} == open && |open - {k}| == |open| - 1;
    hide Open;
  }

  lemma MoveKeepsInv(d: Driver, k: StreamId, s: Stream)
    requires Inv(d) && k in d.streams && Ok(s) && (d.streams[k].stream.closed ==> s.closed)
    ensures d.streams[k].stream.closes <= s.closes && d.streams[k].session in d.sessions
    ensures Inv(Move(d, k, s))
    ensures Move(d, k, s).active == d.active - (s.closes - d.streams[k].stream.closes)
  {
    assert Ok(d.streams[k].stream);
    MoveKeepsSessions(d, k, s);
    MoveKeepsCount(d, k, s);
    hide Ok, SessionsOk, Counted;
  }

  lemma AdaptedCount(d: Driver, k: StreamId, m: Member)
    requires Counted(d.active, d.total, d.streams) && k !in d.streams && !m.stream.closed
    ensures Counted(d.active + 1, d.total + 1, d.streams[k := m])
  {
    OpenPut(d.streams, k, m);
    assert k !in Open(d.streams);
  }

  lemma AdaptedSessions(sessions: map<SessionId, Session>, streams: map<StreamId, Member>, k: StreamId, m: Member,
                        listeners: set<StreamId>)
    requires SessionsOk(sessions, streams) && k !in streams && m.session in sessions
    requires listeners == OpenIn(streams, m.session) + (if m.stream.closed then {} else {k})
    requires !m.stream.closed ==> !sessions[m.session].ended
    ensures SessionsOk(sessions[m.session := sessions[m.session].(listeners := listeners)], streams[k := m])
  {
    var sessions' := sessions[m.session := sessions[m.session].(listeners := listeners)];
    forall id | id in sessions'
      ensures sessions'[id].listeners == OpenIn(streams[k := m], id)
    {
      OpenInPut(streams, k, m, id);
      assert sessions[id].listeners == OpenIn(streams, id);
      assert k !in OpenIn(streams, id);
    }
    hide OpenIn;
  }

  lemma AdaptKeepsInv(d: Driver, k: StreamId, id: SessionId, shape: Shape, sessionEnded: bool)
    requires Inv(d) && k !in d.streams && id in d.sessions
    ensures var t := Step(d, StreamAdapted(k, id, shape, sessionEnded));
            Inv(t) && t.active == d.active + if d.sessions[id].ended then 0 else 1
  {
    hide Ok, Abort, Fresh, OpenIn, Open;
    FreshIsOk(shape, sessionEnded);
    FreshIsOpen(shape, sessionEnded);
    var open := Member(id, Fresh(shape));
    AdaptedCount(d, k, open);
    if d.sessions[id].ended {
      var closed := Member(id, Abort(Fresh(shape), sessionEnded));
      AdaptedSessions(d.sessions, d.streams, k, closed, OpenIn(d.streams, id));
      AdaptedClosed(d, k, id, shape, sessionEnded);
    } else {
      AdaptedSessions(d.sessions, d.streams, k, open, d.sessions[id].listeners + {k});
    }
  }

  lemma FreshIsOpen(shape: Shape, sessionEnded: bool)
    ensures !Fresh(shape).closed && Fresh(shape).closes == 0
    ensures Abort(Fresh(shape), sessionEnded).closed && Abort(Fresh(shape), sessionEnded).closes == 1
  {
  }

  /** A stream of a session that has ended is closed by its own subscription. */
  lemma AdaptedClosed(d: Driver, k: StreamId, id: SessionId, shape: Shape, sessionEnded: bool)
    requires Inv(d) && k !in d.streams && id in d.sessions && d.sessions[id].ended
    ensures var t := Step(d, StreamAdapted(k, id, shape, sessionEnded));
            && t.streams == d.streams[k := Member(id, Abort(Fresh(shape), sessionEnded))]
            && t.sessions == d.sessions[id := d.sessions[id].(listeners := OpenIn(d.streams, id))]
            && Counted(t.active, t.total, t.streams) && t.active == d.active
  {
    hide Ok, Abort, Fresh, OpenIn, Open, StreamsOk;
    FreshIsOpen(shape, sessionEnded);
    UnknownIsNotOpen(d.streams, k, id);
    var m := Member(id, Abort(Fresh(shape), sessionEnded));
    assert d.streams[k := Member(id, Fresh(shape))][k := m] == d.streams[k := m];
    OpenPut(d.streams, k, m);
  }

  lemma UnknownIsNotOpen(streams: map<StreamId, Member>, k: StreamId, id: SessionId)
    requires k !in streams
    ensures OpenIn(streams, id) - {k} == OpenIn(streams, id) && Open(streams) - {k} == Open(streams)
  {
  }

  lemma FinishedOne(streams: map<StreamId, Member>, mine: set<StreamId>, sessionEnded: bool, k: StreamId)
    requires StreamsOk(streams) && k in streams
    ensures var t := Finished(streams, mine, sessionEnded);
            && Ok(t[k].stream) && t[k].session == streams[k].session
            && (t[k].stream.closed <==> streams[k].stream.closed || k in mine)
  {
    AbortIsOk(streams[k].stream, sessionEnded);
    hide Ok;
  }

  lemma FinishedStreams(streams: map<StreamId, Member>, id: SessionId, sessionEnded: bool)
    requires StreamsOk(streams)
    ensures var t := Finished(streams, OpenIn(streams, id), sessionEnded);
            && StreamsOk(t) && |t| == |streams|
            && |Open(t)| == |Open(streams)| - |OpenIn(streams, id)|
            && (forall k :: k in t ==> k in streams && t[k].session == streams[k].session)
            && (forall other :: OpenIn(t, other) == if other == id then {} else OpenIn(streams, other))
  {
    hide Ok, Abort;
    var mine := OpenIn(streams, id);
    var t := Finished(streams, mine, sessionEnded);
    assert t.Keys == streams.Keys;
    forall k | k in streams
      ensures Ok(t[k].stream) && t[k].session == streams[k].session
      ensures t[k].stream.closed <==> streams[k].stream.closed || k in mine
    {
      FinishedOne(streams, mine, sessionEnded, k);
    }
    ClosedTogether(streams, t, id);
  }

  lemma ClosedTogether(streams: map<StreamId, Member>, t: map<StreamId, Member>, id: SessionId)
    requires t.Keys == streams.Keys
    requires forall k :: k in streams ==>
               && t[k].session == streams[k].session
               && (t[k].stream.closed <==> streams[k].stream.closed || k in OpenIn(streams, id))
    ensures |Open(t)| == |Open(streams)| - |OpenIn(streams, id)|
    ensures forall other :: OpenIn(t, other) == if other == id then {} else OpenIn(streams, other)
  {
    var mine := OpenIn(streams, id);
    assert mine <= Open(streams);
    assert Open(t) == Open(streams) - mine;
    assert |Open(streams) - mine| == |Open(streams)| - |mine|;
    forall other
      ensures OpenIn(t, other) == if other == id then {} else OpenIn(streams, other)
    {
    }
  }

  lemma FinishedSessions(sessions: map<SessionId, Session>, streams: map<StreamId, Member>,
                         streams': map<StreamId, Member>, id: SessionId)
    requires SessionsOk(sessions, streams) && id in sessions
    requires forall k :: k in streams' ==> k in streams && streams'[k].session == streams[k].session
    requires forall other :: OpenIn(streams', other) == if other == id then {} else OpenIn(streams, other)
    ensures SessionsOk(sessions[id := Session(true, {})], streams')
  {
    hide OpenIn;
  }

  lemma FinishKeepsInv(d: Driver, id: SessionId, sessionEnded: bool)
    requires Inv(d) && id in d.sessions
    ensures var t := Step(d, SessionFinished(id, sessionEnded));
            Inv(t) && t.active == d.active - |d.sessions[id].listeners|
  {
    hide OpenIn, Open, StreamsOk, Finished, Ok;
    assert d.sessions[id].listeners == OpenIn(d.streams, id);
    FinishedStreams(d.streams, id, sessionEnded);
    if !d.sessions[id].ended {
      FinishedSessions(d.sessions, d.streams, Finished(d.streams, OpenIn(d.streams, id), sessionEnded), id);
    } else {
      assert |d.sessions[id].listeners| == 0;
    }
  }

  lemma StepKeepsInv(d: Driver, e: Event)
    requires Inv(d) && Enabled(d, e)
    ensures Inv(Step(d, e))
  {
    match e {
      case SessionOpened(id) =>
        assert OpenIn(d.streams, id) == {};
        hide OpenIn, Open, Ok;
      case StreamAdapted(k, id, shape, ended) => AdaptKeepsInv(d, k, id, shape, ended);
      case Happened(k, c) =>
        ApplyIsOk(d.streams[k].stream, c);
        ClosesGrow(d.streams[k].stream, c);
        MoveKeepsInv(d, k, Apply(d.streams[k].stream, c));
        hide Inv, Move, Apply;
      case SessionFinished(id, ended) => FinishKeepsInv(d, id, ended);
    }
  }

  const Nothing := Driver(map[], map[], 0, 0)

  ghost predicate IsRun(ds: seq<Driver>, events: seq<Event>) {
    && |ds| == |events| + 1
    && ds[0] == Nothing
    && forall i :: 0 <= i < |events| ==> Enabled(ds[i], events[i]) && ds[i + 1] == Step(ds[i], events[i])
  }

  lemma {:induction false} EveryRunKeepsInv(ds: seq<Driver>, events: seq<Event>, n: nat)
    requires IsRun(ds, events) && n < |ds|
    ensures Inv(ds[n])
  {
    hide Step, Enabled, Inv;
    if n == 0 {
      NothingIsOpen();
    } else {
      EveryRunKeepsInv(ds, events, n - 1);
      StepKeepsInv(ds[n - 1], events[n - 1]);
      assert ds[n - 1 + 1] == Step(ds[n - 1], events[n - 1]);
    }
  }

  lemma NothingIsOpen()
    ensures Inv(Nothing)
  {
    assert Open(Nothing.streams) == {};
  }

  /** Whatever the order of half-closes, errors, cancels, resets and session ends: every stream that was
      opened is reported closed at most once, and exactly once if and only if it is closed; while it is
      open its count of parts is its unfinished halves, at least one; once it is closed every half still
      unfinished has been asked to end. */
  lemma ReportedOnce(ds: seq<Driver>, events: seq<Event>, n: nat, k: StreamId)
    requires IsRun(ds, events) && n < |ds| && k in ds[n].streams
    ensures var s := ds[n].streams[k].stream;
            && s.closes == (if s.closed then 1 else 0)
            && (!s.closed ==> s.remaining == Unfinished(s.readable) + Unfinished(s.writable) >= 1)
            && (s.closed && Unfinished(s.readable) == 1 ==> s.readable.winding)
            && (s.closed && Unfinished(s.writable) == 1 ==> s.writable.winding || s.writable.closing)
  {
    EveryRunKeepsInv(ds, events, n);
  }

  /** Events that close a stream which still has something to do: an error or a caller's stop of it, the end
      of its session, or its adaption after that end. */
  predicate Interrupts(d: Driver, e: Event, k: StreamId) {
    match e
    case Happened(j, c) => j == k && k in d.streams && CutsShort(d.streams[k].stream, c)
    case SessionFinished(id, _) => k in d.streams && d.streams[k].session == id
    case StreamAdapted(j, id, _, _) => j == k && id in d.sessions && d.sessions[id].ended
    case SessionOpened(_) => false
  }

  predicate CutOff(s: Stream) {
    s.closed && (Unfinished(s.readable) == 1 || Unfinished(s.writable) == 1)
  }

  /** A stream that is cut off after an event was so before, or the event interrupted it. */
  lemma CutOffBy(d: Driver, e: Event, k: StreamId)
    requires Inv(d) && Enabled(d, e) && k in Step(d, e).streams && CutOff(Step(d, e).streams[k].stream)
    ensures (k in d.streams && CutOff(d.streams[k].stream)) || Interrupts(d, e, k)
  {
    hide SessionsOk, Counted;
    if k in d.streams {
      var s := d.streams[k].stream;
      assert Ok(s);
      match e {
        case Happened(j, c) =>
          if j == k {
            FinishesExactly(s, c);
            if !s.closed {
              ClosesExactlyBy(s, c);
            }
          }
        case SessionFinished(id, _) =>
          FinishedIsMine(d, e, k);
        case _ =>
      }
    }
  }

  lemma FinishedIsMine(d: Driver, e: Event, k: StreamId)
    requires Inv(d) && Enabled(d, e) && e.SessionFinished? && k in d.streams
    ensures k in Step(d, e).streams
    ensures d.streams[k].session != e.id ==> Step(d, e).streams[k] == d.streams[k]
  {
    assert d.sessions[e.id].listeners == OpenIn(d.streams, e.id);
  }

  /** In every run: a stream that was closed with a half unfinished has had an error, a caller's stop or
      reset, or the end of its session among its events; so an undisturbed stream stays open until both of
      its halves have ended. */
  lemma {:induction false} OnlyInterruptedStreamsAreCutOff(ds: seq<Driver>, events: seq<Event>, n: nat, k: StreamId)
    requires IsRun(ds, events) && n < |ds| && k in ds[n].streams && CutOff(ds[n].streams[k].stream)
    ensures exists i :: 0 <= i < n && i < |events| && Interrupts(ds[i], events[i], k)
  {
    hide Step, Enabled, Inv, CutOff, Interrupts;
    if n > 0 {
      EveryRunKeepsInv(ds, events, n - 1);
      assert ds[n - 1 + 1] == Step(ds[n - 1], events[n - 1]);
      CutOffBy(ds[n - 1], events[n - 1], k);
      if !Interrupts(ds[n - 1], events[n - 1], k) {
        OnlyInterruptedStreamsAreCutOff(ds, events, n - 1, k);
      }
    }
  }

  /** After its session has finished, every stream of it is closed, those adapted later included. */
  lemma NoneOutlivesItsSession(ds: seq<Driver>, events: seq<Event>, n: nat, k: StreamId)
    requires IsRun(ds, events) && n < |ds| && k in ds[n].streams
    ensures ds[n].streams[k].session in ds[n].sessions
    ensures ds[n].sessions[ds[n].streams[k].session].ended ==> ds[n].streams[k].stream.closed
  {
    EveryRunKeepsInv(ds, events, n);
    var id := ds[n].streams[k].session;
    if ds[n].sessions[id].ended {
      assert k !in OpenIn(ds[n].streams, id);
    }
  }

  /** The driver's counter is exactly the open streams, over all sessions; so no `streamClosed` ever finds
      it at zero. */
  lemma CounterIsExact(ds: seq<Driver>, events: seq<Event>, n: nat)
    requires IsRun(ds, events) && n < |ds|
    ensures ds[n].active == |Open(ds[n].streams)| && ds[n].total == |ds[n].streams|
    ensures n < |events| && events[n].Happened? ==>
              var before := ds[n].streams[events[n].k].stream;
              Apply(before, events[n].callback).closes - before.closes <= ds[n].active
    ensures n < |events| && events[n].SessionFinished? ==> |ds[n].sessions[events[n].id].listeners| <= ds[n].active
  {
    EveryRunKeepsInv(ds, events, n);
    var d := ds[n];
    if n < |events| {
      StepStaysPositive(d, events[n]);
    }
  }

  lemma StepStaysPositive(d: Driver, e: Event)
    requires Inv(d) && Enabled(d, e)
    ensures e.Happened? ==> Apply(d.streams[e.k].stream, e.callback).closes - d.streams[e.k].stream.closes <= d.active
    ensures e.SessionFinished? ==> |d.sessions[e.id].listeners| <= d.active
  {
    if e.Happened? {
      ApplyIsOk(d.streams[e.k].stream, e.callback);
      ClosesGrow(d.streams[e.k].stream, e.callback);
      MoveKeepsInv(d, e.k, Apply(d.streams[e.k].stream, e.callback));
    } else if e.SessionFinished? {
      FinishKeepsInv(d, e.id, e.sessionEnded);
    }
  }
}

module StreamAdapters {
  import S = Streams

  class Metrics {
    var streamsActive: nat
    var streamsTotal: nat

    constructor ()
      ensures streamsActive == streamsTotal == 0
    {
      streamsActive, streamsTotal := 0, 0;
    }

    method StreamOpened()
      modifies this
      ensures streamsActive == old(streamsActive) + 1 && streamsTotal == old(streamsTotal) + 1
    {
      streamsActive := streamsActive + 1;
      streamsTotal := streamsTotal + 1;
    }

    method StreamClosed()
      modifies this`streamsActive
      ensures streamsActive == S.Less(old(streamsActive), 1)
    {
      streamsActive := if streamsActive == 0 then 0 else streamsActive - 1;
    }
  }

  datatype SessionState = Connected | Closing | Closed

  class SessionAdapter {
    const metrics: Metrics
    var state: SessionState
    var closeCalled: bool
    /** How often `events.closed` has been called. */
    var notified: nat
    var listeners: set<StreamAdapter>

    /** The closed event has been sent exactly if the session is closed, and then nobody listens. */
    ghost predicate Valid()
      reads this
    {
      && notified == (if state.Closed? then 1 else 0)
      && (state.Closed? ==> listeners == {})
      && (state.Closing? ==> closeCalled)
    }

    /** Every listener is an open stream of this session. */
    ghost predicate Listening()
      reads this, listeners
    {
      forall s :: s in listeners ==> s.parent == this && s.metrics == metrics && !s.closed
    }

    constructor (metrics: Metrics)
      ensures Valid() && state == Connected && !closeCalled && listeners == {} && this.metrics == metrics
    {
      this.metrics := metrics;
      state, closeCalled, notified, listeners := Connected, false, 0, {};
    }

    /** The terminal step, effective once: every stream still open is aborted. */
    method Finish(sessionEnded: bool)
      requires Valid() && Listening()
      modifies this, metrics, listeners
      ensures Valid() && state == Closed && closeCalled == old(closeCalled)
      ensures listeners == {}
      ensures forall s :: s in old(listeners) ==> s.closed && s.Stream() == S.Abort(old(s.Stream()), sessionEnded)
      ensures metrics.streamsActive == S.Less(old(metrics.streamsActive), |old(listeners)|)
    {
      if state == Closed {
        return;
      }
      state := Closed;
      AbortListeners(sessionEnded);
      listeners := {};
      notified := notified + 1;
    }

    /** Each listener unsubscribes itself while the set is walked. */
    method AbortListeners(sessionEnded: bool)
      requires Listening()
      modifies this`listeners, metrics`streamsActive, listeners
      ensures listeners == {}
      ensures forall s :: s in old(listeners) ==> s.closed && s.Stream() == S.Abort(old(s.Stream()), sessionEnded)
      ensures metrics.streamsActive == S.Less(old(metrics.streamsActive), |old(listeners)|)
    {
      hide S.Abort;
      var todo := listeners;
      while todo != {}
        invariant todo == listeners <= old(listeners)
        invariant forall s :: s in todo ==> !s.closed && s.Stream() == old(s.Stream())
        invariant forall s :: s in old(listeners) && s !in todo ==>
          s.closed && s.Stream() == S.Abort(old(s.Stream()), sessionEnded)
        invariant |todo| <= |old(listeners)|
        invariant metrics.streamsActive == S.Less(old(metrics.streamsActive), |old(listeners)| - |todo|)
        decreases |todo|
      {
        var s :| s in todo;
        S.AbortClosesOnce(s.Stream(), sessionEnded);
        s.Abort(sessionEnded);
        todo := todo - {s};
      }
    }

    /** A native close that throws finishes the session at once, as `Finish` does. */
    method Close(throws: bool)
      requires Valid() && Listening()
      modifies this, metrics, listeners
      ensures Valid()
      ensures state == if old(closeCalled) || old(state) == Closed then old(state) else if throws then Closed else Closing
      ensures old(closeCalled) || old(state) == Closed || !throws ==>
                listeners == old(listeners) && unchanged(metrics) && (forall s :: s in listeners ==> unchanged(s))
      ensures !old(closeCalled) && old(state) != Closed && throws ==>
                && listeners == {}
                && (forall s :: s in old(listeners) ==> s.closed && s.Stream() == S.Abort(old(s.Stream()), true))
                && metrics.streamsActive == S.Less(old(metrics.streamsActive), |old(listeners)|)
      ensures closeCalled == (old(closeCalled) || old(state) != Closed)
    {
      if closeCalled || state == Closed {
        return;
      }
      closeCalled := true;
      state := Closing;
      if throws {
        Finish(true);
      }
    }
  }

  class StreamAdapter {
    const metrics: Metrics
    const parent: SessionAdapter
    var remainingParts: nat
    var closed: bool
    var readable: S.Half
    var writable: S.Half
    ghost var closes: nat

    ghost function Stream(): S.Stream
      reads this
    {
      S.Stream(remainingParts, closed, closes, readable, writable)
    }

    /** A step that closes the stream reports it once and unsubscribes it; any other step does neither. */
    twostate predicate Reported()
      reads this, metrics, parent
    {
      && old(closes) <= closes <= old(closes) + 1
      && metrics.streamsActive == S.Less(old(metrics.streamsActive), closes - old(closes))
      && parent.listeners == (if closes == old(closes) then old(parent.listeners) else old(parent.listeners) - {this})
    }

    /** Opens the lifecycle and subscribes to the session; one that has ended answers at once. */
    constructor (parent: SessionAdapter, shape: S.Shape, sessionEnded: bool)
      modifies parent`listeners, parent.metrics
      ensures this.parent == parent && metrics == parent.metrics
      ensures Stream() == if old(parent.state) == Closed then S.Abort(S.Fresh(shape), sessionEnded) else S.Fresh(shape)
      ensures parent.listeners ==
              if old(parent.state) == Closed then old(parent.listeners) else old(parent.listeners) + {this}
      ensures metrics.streamsActive == old(parent.metrics.streamsActive) + (if old(parent.state) == Closed then 0 else 1)
      ensures metrics.streamsTotal == old(parent.metrics.streamsTotal) + 1
    {
      metrics, this.parent := parent.metrics, parent;
      remainingParts, closed, closes := S.Parts(shape), false, 0;
      readable := if shape.Send? then S.Absent else S.Untouched;
      writable := if shape.Receive? then S.Absent else S.Untouched;
      new;
      metrics.StreamOpened();
      if parent.state == Closed {
        Abort(sessionEnded);
        assert parent.listeners == old(parent.listeners) - {this};
      } else {
        parent.listeners := parent.listeners + {this};
      }
    }

    // ----- the lifecycle -----

    method Abort(sessionEnded: bool)
      modifies this, metrics`streamsActive, parent`listeners
      ensures Stream() == S.Abort(old(Stream()), sessionEnded)
      ensures Reported()
      decreases if closed then 0 else 1, 1
    {
      if closed {
        return;
      }
      closed := true;
      parent.listeners := parent.listeners - {this};
      AbortReadable();
      AbortWritable(sessionEnded);
      metrics.StreamClosed();
      closes := closes + 1;
    }

    method FinishPart()
      modifies this, metrics`streamsActive, parent`listeners
      ensures Stream() == S.FinishPart(old(Stream()))
      ensures Reported()
      decreases if closed then 0 else 1, 2
    {
      if closed {
        return;
      }
      remainingParts := if remainingParts == 0 then 0 else remainingParts - 1;
      if remainingParts == 0 {
        Abort(true);
      }
    }

    // ----- the bridges -----

    method AbortReadable()
      modifies this`readable
      ensures readable == S.ReadableAborted(old(readable))
    {
      if readable.Absent? || readable.finished {
        return;
      }
      readable := readable.(winding := true);
    }

    /** The abort listener may finish the half, which calls back into the lifecycle that is aborting. */
    method AbortWritable(sessionEnded: bool)
      requires closed
      modifies this, metrics`streamsActive, parent`listeners
      ensures Stream() == old(Stream()).(writable := S.WritableAborted(old(writable), sessionEnded))
      ensures Reported()
      decreases if closed then 0 else 1, 4
    {
      if writable.Absent? || writable.finished || writable.closing {
        return;
      }
      if writable.winding || sessionEnded {
        FinishWritable();
      } else {
        writable := writable.(winding := true);
      }
    }

    method FinishReadable(counts: bool)
      modifies this, metrics`streamsActive, parent`listeners
      ensures Stream() == S.FinishReadable(old(Stream()), counts)
      ensures Reported()
      decreases if closed then 0 else 1, 3
    {
      if readable.Absent? {
        return;
      }
      var first := !readable.finished;
      readable := readable.(finished := true);
      if first && counts {
        FinishPart();
      }
    }

    method FinishWritable()
      modifies this, metrics`streamsActive, parent`listeners
      ensures Stream() == S.FinishWritable(old(Stream()))
      ensures Reported()
      decreases if closed then 0 else 1, 3
    {
      if writable.Absent? || writable.finished {
        return;
      }
      writable := writable.(finished := true);
      FinishPart();
    }

    // ----- callbacks -----

    method ReadFailed(sessionEnded: bool)
      requires readable.Half?
      modifies this, metrics`streamsActive, parent`listeners
      ensures Stream() == S.Apply(old(Stream()), S.ReadFailed(sessionEnded)) && Reported()
    {
      Abort(sessionEnded);
      FinishReadable(false);
    }

    method ReaderRejected(sessionEnded: bool)
      requires readable.Half?
      modifies this, metrics`streamsActive, parent`listeners
      ensures Stream() == S.Apply(old(Stream()), S.ReaderRejected(sessionEnded)) && Reported()
    {
      if readable.finished {
        return;
      }
      FinishReadable(false);
      Abort(sessionEnded);
    }

    method WriterRejected(sessionEnded: bool)
      requires writable.Half?
      modifies this, metrics`streamsActive, parent`listeners
      ensures Stream() == S.Apply(old(Stream()), S.WriterRejected(sessionEnded)) && Reported()
    {
      if writable.finished || writable.closing {
        return;
      }
      Abort(sessionEnded);
      FinishWritable();
    }

    /** A write or a close that fails. */
    method WriteFailed(sessionEnded: bool)
      requires writable.Half?
      modifies this, metrics`streamsActive, parent`listeners
      ensures Stream() == S.Apply(old(Stream()), S.WriteFailed(sessionEnded)) && Reported()
      ensures Stream() == S.Apply(old(Stream()), S.CloseFailed(sessionEnded))
    {
      Abort(sessionEnded);
      FinishWritable();
    }

    method CloseCalled()
      requires writable.Half?
      modifies this`writable
      ensures Stream() == S.Apply(old(Stream()), S.CloseCalled)
    {
      writable := writable.(closing := true);
    }

    /** `stop` of a receive stream, `reset` of the others. */
    method Stop()
      modifies this, metrics`streamsActive, parent`listeners
      ensures Stream() == S.Apply(old(Stream()), S.StoppedByCaller) && Reported()
    {
      if readable.Half? {
        readable := readable.(winding := true);
      }
      if writable.Half? && !writable.closing {
        writable := writable.(winding := true);
      }
      Abort(false);
    }
  }
}
