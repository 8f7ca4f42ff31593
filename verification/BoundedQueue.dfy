/**
  The bounded FIFO queue (packages/core/src/utilities/bounded-queue.ts).

  `Queues` is the reference: a plain sequence with a capacity and an overflow policy.
  `BoundedQueues` is the ring buffer the program runs, proved against it.
*/
module Queues {
  import opened Wrappers

  datatype Overflow = DropOldest | DropNewest | RejectItem | CloseSession

  datatype EnqueueResult<+T> =
    | Enqueued
    | DroppedOldest(dropped: T)
    | DroppedNewest(refused: T)
    | Rejected(item: T)
    | ClosesSession(item: T)
  {
    predicate Accepted() {
      Enqueued? || DroppedOldest?
    }
  }

  function Enqueue<T>(q: seq<T>, capacity: nat, overflow: Overflow, item: T): (r: (seq<T>, EnqueueResult<T>))
    requires 1 <= capacity && |q| <= capacity
    ensures |r.0| <= capacity
  {
    if |q| < capacity then
      (q + [item], Enqueued)
    else
      match overflow
      case DropOldest => (q[1..] + [item], DroppedOldest(q[0]))
      case DropNewest => (q, DroppedNewest(item))
      case RejectItem => (q, Rejected(item))
      case CloseSession => (q, ClosesSession(item))
  }

  function Peek<T>(q: seq<T>): Option<T> {
    if q == [] then None else Some(q[0])
  }

  // ----- whole runs -----

  datatype Op<T> = Put(item: T) | Take | Clear

  /** How an accepted item left the queue. */
  datatype Exit<T> = Dequeued(item: T) | Evicted(item: T) | Cleared(item: T)

  /** A queue together with everything ever accepted and everything that has left it, in order. */
  datatype History<T> = History(contents: seq<T>, accepted: seq<T>, exits: seq<Exit<T>>)

  function Step<T>(h: History<T>, capacity: nat, overflow: Overflow, op: Op<T>): (h': History<T>)
    requires 1 <= capacity && |h.contents| <= capacity
    ensures |h'.contents| <= capacity
  {
    match op
    case Put(x) =>
      var (q, r) := Enqueue(h.contents, capacity, overflow, x);
      History(q,
              if r.Accepted() then h.accepted + [x] else h.accepted,
              if r.DroppedOldest? then h.exits + [Evicted(r.dropped)] else h.exits)
    case Take =>
      if h.contents == [] then h
      else History(h.contents[1..], h.accepted, h.exits + [Dequeued(h.contents[0])])
    case Clear =>
      History([], h.accepted, h.exits + ClearedAll(h.contents))
  }

  function ClearedAll<T>(q: seq<T>): (r: seq<Exit<T>>)
    ensures |r| == |q| && forall i :: 0 <= i < |q| ==> r[i] == Cleared(q[i])
  {
    seq(|q|, i requires 0 <= i < |q| => Cleared(q[i]))
  }

  function Run<T>(capacity: nat, overflow: Overflow, ops: seq<Op<T>>): (h: History<T>)
    requires 1 <= capacity
    ensures |h.contents| <= capacity
  {
    if ops == [] then History([], [], [])
    else Step(Run(capacity, overflow, ops[..|ops| - 1]), capacity, overflow, ops[|ops| - 1])
  }

  function Items<T>(exits: seq<Exit<T>>): (r: seq<T>)
    ensures |r| == |exits| && forall i :: 0 <= i < |exits| ==> r[i] == exits[i].item
  {
    seq(|exits|, i requires 0 <= i < |exits| => exits[i].item)
  }

  /** FIFO conservation over every run and every policy: what left, in the order it left,
      followed by what is still queued, is exactly what was accepted, in acceptance order. */
  lemma {:induction false} RunConserves<T>(capacity: nat, overflow: Overflow, ops: seq<Op<T>>)
    requires 1 <= capacity
    ensures var h := Run(capacity, overflow, ops);
            && h.accepted == Items(h.exits) + h.contents
            && |h.contents| <= capacity
  {
    hide Step, Items;
    if ops != [] {
      RunConserves(capacity, overflow, ops[..|ops| - 1]);
      StepConserves(Run(capacity, overflow, ops[..|ops| - 1]), capacity, overflow, ops[|ops| - 1]);
    } else {
      NothingConserves<T>();
    }
  }

  lemma NothingConserves<T>()
    ensures Items<T>([]) == []
  {
  }

  lemma StepConserves<T>(prev: History<T>, capacity: nat, overflow: Overflow, op: Op<T>)
    requires 1 <= capacity && |prev.contents| <= capacity && prev.accepted == Items(prev.exits) + prev.contents
    ensures var h := Step(prev, capacity, overflow, op); h.accepted == Items(h.exits) + h.contents
  {
    var h := Step(prev, capacity, overflow, op);
    match op {
      case Put(x) =>
      case Take =>
        if prev.contents != [] {
          assert prev.contents == [prev.contents[0]] + prev.contents[1..];
        }
      case Clear =>
        assert Items(h.exits) == Items(prev.exits) + prev.contents;
    }
  }

  /** Only the drop-oldest policy ever evicts, and then the queue was full and the evicted item is
      the one a `peek` just before the call showed. */
  lemma EvictsWhatPeekShowed<T>(q: seq<T>, capacity: nat, overflow: Overflow, item: T)
    requires 1 <= capacity && |q| <= capacity
    ensures var r := Enqueue(q, capacity, overflow, item).1;
            && (r.DroppedOldest? <==> |q| == capacity && overflow == DropOldest)
            && (r.DroppedOldest? ==> Peek(q) == Some(r.dropped))
            && (!r.Accepted() ==> Enqueue(q, capacity, overflow, item).0 == q)
  {
  }

  /** What each policy does: with room, every policy appends; a full queue makes room by dropping its oldest
      item, or keeps what it has and drops, rejects or closes for the new one. */
  lemma EnqueuesByPolicy<T>(q: seq<T>, capacity: nat, overflow: Overflow, item: T)
    requires 1 <= capacity && |q| <= capacity
    ensures var (q', r) := Enqueue(q, capacity, overflow, item);
            && (r.Enqueued? <==> |q| < capacity)
            && (r.Enqueued? ==> q' == q + [item])
            && (r.DroppedOldest? <==> |q| == capacity && overflow.DropOldest?)
            && (r.DroppedOldest? ==> [r.dropped] + q' == q + [item])
            && (r.DroppedNewest? <==> |q| == capacity && overflow.DropNewest?)
            && (r.Rejected? <==> |q| == capacity && overflow.RejectItem?)
            && (r.ClosesSession? <==> |q| == capacity && overflow.CloseSession?)
            && (r.DroppedNewest? ==> q' == q && r.refused == item)
            && (r.Rejected? || r.ClosesSession? ==> q' == q && r.item == item)
  {
    if |q| == capacity {
      assert [q[0]] + (q[1..] + [item]) == q + [item];
    }
  }
}

module BoundedQueues {
  import opened Wrappers
  import Q = Queues

  const MAX_CAPACITY := 0xffff_ffff

  class BoundedQueue<T> {
    const capacity: nat
    const overflow: Q.Overflow
    var items: array<Option<T>>
    var head: nat
    var size: nat

    ghost predicate Valid()
      reads this, items
    {
      && 1 <= capacity <= MAX_CAPACITY
      && items.Length == capacity
      && head < capacity
      && size <= capacity
      && (forall i :: 0 <= i < capacity && Occupied(head, size, capacity, i) ==> items[i].Some?)
    }

    /** The abstract queue: the ring read from the head. */
    ghost function Contents(): (s: seq<T>)
      requires Valid()
      reads this, items
      ensures |s| == size
    {
      seq(size, k requires 0 <= k < size && Valid() reads this, items => items[Slot(head, k, capacity)].value)
    }

    constructor (capacity: nat, overflow: Q.Overflow)
      requires 1 <= capacity <= MAX_CAPACITY
      ensures Valid() && fresh(items) && Contents() == []
      ensures this.capacity == capacity && this.overflow == overflow
    {
      this.capacity := capacity;
      this.overflow := overflow;
      items := new Option<T>[capacity](_ => None);
      head := 0;
      size := 0;
    }

    predicate IsEmpty()
      reads this
    {
      size == 0
    }

    predicate IsFull()
      reads this
    {
      size == capacity
    }

    method Enqueue(item: T) returns (r: Q.EnqueueResult<T>)
      requires Valid()
      modifies this, items
      ensures Valid() && items == old(items)
      ensures (Contents(), r) == Q.Enqueue(old(Contents()), capacity, overflow, item)
    {
      ghost var before := Contents();
      if !IsFull() {
        var tail := RingIndex(head, size, capacity);
        items[tail] := Some(item);
        size := size + 1;
        assert Contents() == before + [item];
        return Q.Enqueued;
      }
      match overflow {
        case DropOldest =>
          var dropped := items[head].value;
          items[head] := Some(item);
          head := RingIndex(head, 1, capacity);
          assert Contents() == before[1..] + [item];
          return Q.DroppedOldest(dropped);
        case DropNewest =>
          return Q.DroppedNewest(item);
        case RejectItem =>
          return Q.Rejected(item);
        case CloseSession =>
          return Q.ClosesSession(item);
      }
    }

    method Dequeue() returns (r: Option<T>)
      requires Valid()
      modifies this, items
      ensures Valid() && items == old(items)
      ensures r == Q.Peek(old(Contents()))
      ensures Contents() == if old(Contents()) == [] then [] else old(Contents())[1..]
    {
      if IsEmpty() {
        return None;
      }
      ghost var before := Contents();
      var item := items[head].value;
      items[head] := None;
      head := RingIndex(head, 1, capacity);
      size := size - 1;
      assert Contents() == before[1..];
      if size == 0 {
        head := 0;
      }
      return Some(item);
    }

    method Peek() returns (r: Option<T>)
      requires Valid()
      ensures r == Q.Peek(Contents())
    {
      r := if IsEmpty() then None else Some(items[head].value);
    }

    method Clear()
      requires Valid()
      modifies this
      ensures Valid() && fresh(items) && Contents() == []
    {
      items := new Option<T>[capacity](_ => None);
      head := 0;
      size := 0;
    }

    /** A snapshot: the loop over the ring yields the abstract contents. */
    method ToArray() returns (values: seq<T>)
      requires Valid()
      ensures values == Contents()
    {
      values := [];
      for offset := 0 to size
        invariant values == Contents()[..offset]
      {
        var i := RingIndex(head, offset, capacity);
        values := values + [items[i].value];
      }
    }
  }

  /** The ring slot that is `k` places after `head`, for less than one full turn. */
  function Slot(head: nat, k: nat, capacity: nat): (s: nat)
    requires head < capacity && k <= capacity
    ensures s < capacity
  {
    if head + k < capacity then head + k else head + k - capacity
  }

  /** Whether ring slot `i` holds an item. */
  predicate Occupied(head: nat, size: nat, capacity: nat, i: nat) {
    head <= i < head + size || i + capacity < head + size
  }

  /** The index arithmetic of the ring. Its contract keeps `%` out of the proofs that use it. */
  method RingIndex(head: nat, k: nat, capacity: nat) returns (i: nat)
    requires head < capacity && k <= capacity
    ensures i == Slot(head, k, capacity)
  {
    i := (head + k) % capacity;
  }
}
