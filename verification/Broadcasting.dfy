/** In-process publish/subscribe: one bounded queue per subscriber; a message that finds a
    queue full is dropped for that subscriber only. */
module Broadcasting {
  import opened Positions
  import opened Sequences

  const DEFAULT_MAXSIZE: int := 256

  /** One subscriber's queue together with its history: what was `offered` to it since it
      subscribed and what was `taken` from it. */
  datatype Queue = Queue(items: seq<Position>, taken: seq<Position>, offered: seq<Position>) {
    function Accepted(): seq<Position> { taken + items }
  }

  const EMPTY_QUEUE := Queue([], [], [])

  datatype QueueOp = Put(p: Position) | Get

  /** A queue without a positive bound is never full. */
  predicate Full(maxsize: int, items: seq<Position>) {
    maxsize > 0 && |items| >= maxsize
  }

  function Offer(maxsize: int, q: Queue, p: Position): Queue {
    Queue(if Full(maxsize, q.items) then q.items else q.items + [p], q.taken, q.offered + [p])
  }

  /** A get on an empty queue waits, so it changes nothing. */
  function Take(q: Queue): Queue {
    if q.items == [] then q else Queue(q.items[1..], q.taken + [q.items[0]], q.offered)
  }

  function Apply(maxsize: int, q: Queue, op: QueueOp): Queue {
    match op
    case Put(p) => Offer(maxsize, q, p)
    case Get => Take(q)
  }

  function RunQueue(maxsize: int, ops: seq<QueueOp>): Queue {
    if ops == [] then EMPTY_QUEUE
    else Apply(maxsize, RunQueue(maxsize, ops[..|ops| - 1]), ops[|ops| - 1])
  }

  /** How many puts met a queue holding exactly the bound. */
  function Drops(maxsize: int, ops: seq<QueueOp>): nat {
    if ops == [] then 0
    else
      var before := ops[..|ops| - 1];
      Drops(maxsize, before)
      + if ops[|ops| - 1].Put? && maxsize > 0 && |RunQueue(maxsize, before).items| == maxsize then 1 else 0
  }

  function Puts(ops: seq<QueueOp>): seq<Position> {
    if ops == [] then []
    else Puts(ops[..|ops| - 1]) + if ops[|ops| - 1].Put? then [ops[|ops| - 1].p] else []
  }

  ghost predicate Conserved(maxsize: int, q: Queue) {
    && Subsequence(q.Accepted(), q.offered)
    && (maxsize > 0 ==> |q.items| <= maxsize)
  }

  lemma ApplyConserves(maxsize: int, q: Queue, op: QueueOp)
    requires Conserved(maxsize, q)
    ensures Conserved(maxsize, Apply(maxsize, q, op))
    ensures op.Get? ==> Apply(maxsize, q, op).Accepted() == q.Accepted()
  {
    match op
    case Put(p) =>
      SubsequenceSkip(q.Accepted(), q.offered, p);
      SubsequenceBoth(q.Accepted(), q.offered, p);
      assert q.taken + (q.items + [p]) == q.Accepted() + [p];
    case Get =>
      if q.items != [] {
        assert (q.taken + [q.items[0]]) + q.items[1..] == q.taken + q.items;
      }
  }

  /** Over any history: what was consumed followed by what is queued is an in-order subsequence
      of what was published, the bound is kept, and published = consumed + queued + dropped,
      where every drop happened with exactly the bound outstanding. */
  lemma {:induction false} QueueConservation(maxsize: int, ops: seq<QueueOp>)
    ensures Conserved(maxsize, RunQueue(maxsize, ops))
    ensures RunQueue(maxsize, ops).offered == Puts(ops)
    ensures |Puts(ops)| == |RunQueue(maxsize, ops).taken| + |RunQueue(maxsize, ops).items| + Drops(maxsize, ops)
  {
    if ops == [] {
      assert EMPTY_QUEUE.Accepted() == [];
      EmptySubsequence<Position>([]);
    } else {
      var before := ops[..|ops| - 1];
      QueueConservation(maxsize, before);
      ApplyConserves(maxsize, RunQueue(maxsize, before), ops[|ops| - 1]);
    }
  }

  /** Nothing was dropped exactly when everything published was consumed or is still queued. */
  lemma NoDropsIff(maxsize: int, ops: seq<QueueOp>)
    ensures Drops(maxsize, ops) == 0 <==> RunQueue(maxsize, ops).Accepted() == Puts(ops)
  {
    QueueConservation(maxsize, ops);
    SubsequenceLength(RunQueue(maxsize, ops).Accepted(), Puts(ops));
  }

  class ClientQueue {
    const maxsize: int
    var items: seq<Position>
    ghost var ops: seq<QueueOp>

    ghost predicate Valid()
      reads this
    {
      items == State().items
    }

    ghost function State(): Queue
      reads this
    {
      RunQueue(maxsize, ops)
    }

    constructor (maxsize: int)
      ensures Valid() && this.maxsize == maxsize && ops == []
    {
      this.maxsize := maxsize;
      items := [];
      ops := [];
    }

    method PutNowait(p: Position) returns (ok: bool)
      requires Valid()
      modifies this
      ensures Valid() && ops == old(ops) + [Put(p)]
      ensures ok <==> maxsize <= 0 || |old(items)| < maxsize
      ensures items == if ok then old(items) + [p] else old(items)
    {
      ok := maxsize <= 0 || |items| < maxsize;
      if ok {
        items := items + [p];
      }
      ops := ops + [Put(p)];
      assert ops[..|ops| - 1] == old(ops);
    }

    method GetItem() returns (p: Position)
      requires Valid() && items != []
      modifies this
      ensures Valid() && ops == old(ops) + [Get]
      ensures [p] + items == old(items)
    {
      p := items[0];
      items := items[1..];
      ops := ops + [Get];
      assert ops[..|ops| - 1] == old(ops);
    }
  }

  class Broadcast {
    const maxsize: int
    var subscribers: set<ClientQueue>

    ghost predicate Valid()
      reads this, subscribers
    {
      forall q :: q in subscribers ==> q.Valid() && q.maxsize == maxsize
    }

    constructor (maxsize: int := DEFAULT_MAXSIZE)
      ensures Valid() && this.maxsize == maxsize && subscribers == {}
    {
      this.maxsize := maxsize;
      subscribers := {};
    }

    method Subscribe() returns (queue: ClientQueue)
      requires Valid()
      modifies this
      ensures Valid() && fresh(queue) && queue.ops == []
      ensures subscribers == old(subscribers) + {queue}
    {
      queue := new ClientQueue(maxsize);
      subscribers := subscribers + {queue};
    }

    method Unsubscribe(queue: ClientQueue)
      requires Valid()
      modifies this
      ensures Valid() && subscribers == old(subscribers) - {queue}
    {
      subscribers := subscribers - {queue};
    }

    /** Every subscriber is offered the message exactly once, whatever the others' queues hold;
        an unsubscribed queue is not touched. */
    method Publish(p: Position)
      requires Valid()
      modifies subscribers
      ensures Valid() && subscribers == old(subscribers)
      ensures forall q :: q in subscribers ==> q.ops == old(q.ops) + [Put(p)]
    {
      var rest := subscribers;
      while rest != {}
        invariant rest <= subscribers && Valid()
        invariant forall q :: q in rest ==> q.ops == old(q.ops)
        invariant forall q :: q in subscribers - rest ==> q.ops == old(q.ops) + [Put(p)]
      {
        var q :| q in rest;
        var ok := q.PutNowait(p);
        rest := rest - {q};
      }
    }
  }
}
