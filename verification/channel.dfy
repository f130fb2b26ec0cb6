/**
 * The frame channel between the capture thread and the GUI: a FIFO
 * `queue.Queue(maxsize)` used with a drop-if-full producer. `maxsize` 0
 * means unbounded, as in Python; the application builds it with maxsize 1.
 */
module Channel {
  import opened Wrappers

  /** `Queue.full()`: only a bounded queue can be full. */
  predicate Full<T>(items: seq<T>, capacity: nat)
  {
    0 < capacity <= |items|
  }

  /** What the queue's size invariant allows. */
  predicate WithinCapacity<T>(items: seq<T>, capacity: nat)
  {
    capacity == 0 || |items| <= capacity
  }

  /**
   * The producer's policy, `if not q.full(): q.put(x)`: the new item is
   * dropped when the queue is full and the items already queued stay.
   */
  function Offer<T>(items: seq<T>, capacity: nat, x: T): (r: seq<T>)
    ensures Full(items, capacity) ==> r == items
    ensures !Full(items, capacity) ==> r == items + [x]
    ensures WithinCapacity(items, capacity) ==> WithinCapacity(r, capacity)
  {
    if Full(items, capacity) then items else items + [x]
  }

  /** An operation on the channel: the producer's publish, or the consumer's `get_nowait`. */
  datatype Op<T> = Publish(item: T) | Take

  function Apply<T>(items: seq<T>, capacity: nat, op: Op<T>): seq<T>
  {
    match op
    case Publish(x) => Offer(items, capacity, x)
    case Take => if items == [] then [] else items[1..]
  }

  /** The queue contents after a sequence of operations, in the order given. */
  function Replay<T>(items: seq<T>, capacity: nat, ops: seq<Op<T>>): seq<T>
    decreases |ops|
  {
    if ops == [] then items
    else Apply(Replay(items, capacity, ops[..|ops| - 1]), capacity, ops[|ops| - 1])
  }

  /** Whatever the interleaving of publishes and takes, a bounded queue never exceeds its capacity. */
  lemma {:induction false} ReplayWithinCapacity<T>(items: seq<T>, capacity: nat, ops: seq<Op<T>>)
    requires WithinCapacity(items, capacity)
    ensures WithinCapacity(Replay(items, capacity, ops), capacity)
    decreases |ops|
  {
    if ops != [] {
      ReplayWithinCapacity(items, capacity, ops[..|ops| - 1]);
    }
  }

  /** Every item in the queue was either there at the start or published by one of the operations. */
  lemma {:induction false} ReplayOnlyPublished<T>(items: seq<T>, capacity: nat, ops: seq<Op<T>>, y: T)
    requires y in Replay(items, capacity, ops)
    ensures y in items || Publish(y) in ops
    decreases |ops|
  {
    if ops != [] {
      var prefix := ops[..|ops| - 1];
      var before := Replay(items, capacity, prefix);
      assert ops == prefix + [ops[|ops| - 1]];
      if y in before {
        ReplayOnlyPublished(items, capacity, prefix, y);
      } else {
        assert ops[|ops| - 1] == Publish(y);
      }
    }
  }

  /**
   * Drop-newest with one slot: a second publish without an intervening take
   * is discarded and the first item stays; after a take the next publish lands.
   */
  lemma SingleSlotDropsNewest<T>(a: T, b: T)
    ensures Replay([], 1, [Publish(a), Publish(b)]) == [a]
    ensures Replay([], 1, [Publish(a), Publish(b), Take, Publish(b)]) == [b]
  {
    var one: seq<Op<T>> := [Publish(a)];
    var two := one + [Publish(b)];
    var three := two + [Take];
    var four := three + [Publish(b)];
    assert one[..0] == [] && two[..1] == one && three[..2] == two && four[..3] == three;
    assert Replay([], 1, one) == [a];
    assert Replay([], 1, two) == [a];
    assert Replay([], 1, three) == [];
    assert Replay([], 1, four) == [b];
    assert two == [Publish(a), Publish(b)] && four == [Publish(a), Publish(b), Take, Publish(b)];
  }

  /** `queue.Queue`: a FIFO whose `items` are the queued values, oldest first. */
  class FrameQueue<T> {
    var items: seq<T>
    const capacity: nat

    ghost predicate Valid()
      reads this
    {
      WithinCapacity(items, capacity)
    }

    /** `queue.Queue(maxsize)` */
    constructor (maxsize: nat)
      ensures Valid() && items == [] && capacity == maxsize
    {
      items := [];
      capacity := maxsize;
    }

    /** `full()` */
    method IsFull() returns (full: bool)
      ensures full <==> 0 < capacity <= |items|
    {
      full := 0 < capacity && capacity <= |items|;
    }

    /** `empty()` */
    method IsEmpty() returns (empty: bool)
      ensures empty <==> |items| == 0
    {
      empty := |items| == 0;
    }

    /** `put(x)` on a queue with room; appends at the back. */
    method Put(x: T)
      requires Valid() && !Full(items, capacity)
      modifies this
      ensures Valid() && items == old(items) + [x]
    {
      items := items + [x];
    }

    /** `get_nowait()`: the oldest item, or `None` where Python raises `queue.Empty`. */
    method GetNowait() returns (r: Option<T>)
      requires Valid()
      modifies this
      ensures Valid() && items == Apply(old(items), capacity, Take)
      ensures old(items) == [] ==> r == None
      ensures old(items) != [] ==> r == Some(old(items)[0])
    {
      if items == [] {
        r := None;
      } else {
        r := Some(items[0]);
        items := items[1..];
      }
    }
  }
}
