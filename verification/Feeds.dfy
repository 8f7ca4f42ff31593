/**
  One session's incoming datagrams: the bounded queue, its byte counter, the drain loop's flag and the
  account of everything read (packages/nest-webtransport/src/server/webtransport-runtime.ts:721-831,
  1354-1358). Datagrams are numbered in the order they are read past the abort check.
*/
module Feeds {
  import Q = Queues

  datatype Datagram = Datagram(number: nat, size: nat)

  /**
    NotDraining: no loop runs. AwaitingCapacity: it is one of its scheduler's capacity waiters.
    Resuming: it was woken, or found nothing to wait for, and goes on at its next turn.
    AwaitingOutcome: it has submitted a datagram and handles the outcome.
  */
  datatype Drain = NotDraining | AwaitingCapacity | Resuming | AwaitingOutcome

  /** `whenCapacityAvailable`: waits only if there is something to wait for. */
  function Suspended(waits: bool): Drain {
    if waits then AwaitingCapacity else Resuming
  }

  /** The capacity waiters are flushed. */
  function Woken(f: Feed): Feed {
    f.(drain := if f.drain.AwaitingCapacity? then Resuming else f.drain)
  }

  datatype Feed = Feed(
    queue: seq<Datagram>,
    bytes: int,
    read: nat,
    dropped: nat,
    cleared: nat,
    submitted: seq<nat>,
    drain: Drain)

  const EmptyFeed := Feed([], 0, 0, 0, 0, [], NotDraining)

  function Size(queue: seq<Datagram>): nat {
    if queue == [] then 0 else queue[0].size + Size(queue[1..])
  }

  function Numbers(queue: seq<Datagram>): (r: seq<nat>)
    ensures |r| == |queue| && forall i :: 0 <= i < |r| ==> r[i] == queue[i].number
  {
    seq(|queue|, i requires 0 <= i < |queue| => queue[i].number)
  }

  /** Why an arriving datagram is dropped, if it is. */
  datatype Verdict = TooLarge | OverRate | OverServerBytes | ToQueue

  /** The bytes that a full drop-oldest queue would give back. */
  function Replaced(f: Feed, capacity: nat, overflow: Q.Overflow): nat {
    if |f.queue| == capacity && overflow == Q.DropOldest && f.queue != [] then f.queue[0].size else 0
  }

  function Judge(f: Feed, capacity: nat, overflow: Q.Overflow, size: nat, fits: bool, inRate: bool,
                 serverBytes: int, maxServerBytes: nat): Verdict
  {
    if !fits then TooLarge
    else if !inRate then OverRate
    else if serverBytes - Replaced(f, capacity, overflow) + size > maxServerBytes then OverServerBytes
    else ToQueue
  }

  function Dropped(f: Feed): Feed {
    f.(read := f.read + 1, dropped := f.dropped + 1)
  }

  /** A datagram offered to the queue, with the byte counter following what the queue reports. A drain loop
      is started if none runs; `waits` says whether it has to wait for its scheduler. */
  function Offered(f: Feed, capacity: nat, overflow: Q.Overflow, size: nat, waits: bool): Feed
    requires 1 <= capacity && |f.queue| <= capacity
  {
    var (queue, r) := Q.Enqueue(f.queue, capacity, overflow, Datagram(f.read, size));
    f.(queue := queue,
       bytes := f.bytes + (if r.Accepted() then size else 0) - (if r.DroppedOldest? then r.dropped.size else 0),
       read := f.read + 1,
       dropped := if r.Enqueued? then f.dropped else f.dropped + 1,
       drain := if f.drain.NotDraining? && queue != [] && !r.ClosesSession? then Suspended(waits) else f.drain)
  }

  /** By how much the server's byte counter moves in the same step. */
  function OfferedBytes(f: Feed, capacity: nat, overflow: Q.Overflow, size: nat): int
    requires 1 <= capacity && |f.queue| <= capacity
  {
    var r := Q.Enqueue(f.queue, capacity, overflow, Datagram(f.read, size)).1;
    (if r.Accepted() then size else 0) - (if r.DroppedOldest? then r.dropped.size else 0)
  }

  /** The drain loop takes the oldest datagram and passes it to `submit`. */
  function Taken(f: Feed): Feed
    requires f.queue != []
  {
    f.(queue := f.queue[1..],
       bytes := f.bytes - f.queue[0].size,
       submitted := f.submitted + [f.queue[0].number],
       drain := AwaitingOutcome)
  }

  function Cleared(f: Feed): Feed {
    f.(queue := [], bytes := 0, cleared := f.cleared + |f.queue|)
  }

  // ----- what always holds -----

  ghost predicate Increasing(s: seq<nat>) {
    forall i, j :: 0 <= i < j < |s| ==> s[i] < s[j]
  }

  ghost predicate Below(s: seq<nat>, n: nat) {
    forall i :: 0 <= i < |s| ==> s[i] < n
  }

  /** The byte counter is the queue's bytes; every datagram read is dropped, queued, submitted or
      cleared; and submissions, then the queue, are in arrival order. */
  ghost predicate Ok(f: Feed, capacity: nat) {
    && |f.queue| <= capacity
    && f.bytes == Size(f.queue)
    && f.read == f.dropped + |f.queue| + |f.submitted| + f.cleared
    && Increasing(f.submitted + Numbers(f.queue))
    && Below(f.submitted + Numbers(f.queue), f.read)
  }

  lemma {:induction false} SizeAppend(a: seq<Datagram>, d: Datagram)
    ensures Size(a + [d]) == Size(a) + d.size
  {
    if a != [] {
      assert (a + [d])[1..] == a[1..] + [d];
      SizeAppend(a[1..], d);
    } else {
      assert [d][1..] == [];
    }
  }

  lemma DroppedIsOk(f: Feed, capacity: nat)
    requires Ok(f, capacity)
    ensures Ok(Dropped(f), capacity)
  {
  }

  lemma ClearedIsOk(f: Feed, capacity: nat)
    requires Ok(f, capacity)
    ensures Ok(Cleared(f), capacity)
  {
    hide Size;
    assert Size([]) == 0 by { SizeEmpty(); }
    var f' := Cleared(f);
    var all := f.submitted + Numbers(f.queue);
    assert f'.submitted + Numbers(f'.queue) == all[..|f.submitted|];
  }

  lemma WokenIsOk(f: Feed, capacity: nat)
    requires Ok(f, capacity)
    ensures Ok(Woken(f), capacity)
  {
  }

  lemma SizeEmpty()
    ensures Size([]) == 0
  {
  }

  lemma TakenIsOk(f: Feed, capacity: nat)
    requires Ok(f, capacity) && f.queue != []
    ensures Ok(Taken(f), capacity)
    ensures Size(Taken(f).queue) == Size(f.queue) - f.queue[0].size
  {
    var f' := Taken(f);
    hide Increasing;
    assert f'.submitted + Numbers(f'.queue) == f.submitted + Numbers(f.queue);
  }

  lemma IncreasingDropAt(a: seq<nat>, b: seq<nat>, n: nat)
    requires Increasing(a + b) && Below(a + b, n) && b != []
    ensures Increasing(a + b[1..]) && Below(a + b[1..], n)
  {
    var all := a + b;
    var kept := a + b[1..];
    forall i | 0 <= i < |kept|
      ensures kept[i] < n
    {
      assert kept[i] == all[if i < |a| then i else i + 1];
    }
    forall i, j | 0 <= i < j < |kept|
      ensures kept[i] < kept[j]
    {
      assert kept[i] == all[if i < |a| then i else i + 1];
      assert kept[j] == all[if j < |a| then j else j + 1];
    }
  }

  lemma IncreasingAppend(s: seq<nat>, n: nat)
    requires Increasing(s) && Below(s, n)
    ensures Increasing(s + [n]) && Below(s + [n], n + 1)
  {
  }

  lemma OfferedIsOk(f: Feed, capacity: nat, overflow: Q.Overflow, size: nat, waits: bool)
    requires 1 <= capacity && Ok(f, capacity)
    ensures Ok(Offered(f, capacity, overflow, size, waits), capacity)
    ensures Size(Offered(f, capacity, overflow, size, waits).queue) == Size(f.queue) + OfferedBytes(f, capacity, overflow, size)
  {
    var d := Datagram(f.read, size);
    var (queue, r) := Q.Enqueue(f.queue, capacity, overflow, d);
    var numbers := f.submitted + Numbers(f.queue);
    match r {
      case Enqueued =>
        SizeAppend(f.queue, d);
        IncreasingAppend(numbers, f.read);
        assert f.submitted + Numbers(queue) == numbers + [f.read];
      case DroppedOldest(dropped) =>
        SizeAppend(f.queue[1..], d);
        IncreasingDropAt(f.submitted, Numbers(f.queue), f.read);
        var rest := f.submitted + Numbers(f.queue)[1..];
        IncreasingAppend(rest, f.read);
        assert f.submitted + Numbers(queue) == rest + [f.read];
      case _ =>
    }
  }

  /** Queueing never takes the server's total over its limit, drop-oldest included: the bytes given
      back are those of the datagram that the queue then evicts. */
  lemma OfferedStaysUnderLimit(f: Feed, capacity: nat, overflow: Q.Overflow, size: nat, fits: bool,
                               inRate: bool, serverBytes: int, maxServerBytes: nat)
    requires 1 <= capacity && |f.queue| <= capacity && serverBytes <= maxServerBytes
    requires Judge(f, capacity, overflow, size, fits, inRate, serverBytes, maxServerBytes).ToQueue?
    ensures serverBytes + OfferedBytes(f, capacity, overflow, size) <= maxServerBytes
  {
  }

  /** After an offer the queue is not empty and a drain loop is left running. */
  lemma OfferedIsDraining(f: Feed, capacity: nat, overflow: Q.Overflow, size: nat, waits: bool)
    requires 1 <= capacity && |f.queue| <= capacity
    requires f.queue != [] ==> !f.drain.NotDraining?
    ensures Offered(f, capacity, overflow, size, waits).queue != []
    ensures var drain := Offered(f, capacity, overflow, size, waits).drain;
            !drain.NotDraining? && (drain.AwaitingCapacity? ==> waits || f.drain.AwaitingCapacity?)
  {
  }
}
