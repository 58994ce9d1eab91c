/** The sensor message queue: the only state the three tasks share.
    Only the observable contract of the CMSIS-RTOS v2 queue as it is called
    is modelled: a bounded FIFO of `SensorData`, a put that fails at once
    when the queue is full, and a get that finds nothing when it is empty. */
module Queue {
  import opened Types

  /** The message count passed to `osMessageQueueNew` for the sensor queue. */
  const SensorQueueCapacity: nat := 5

  datatype PutResult = PutResult(status: Status, items: seq<SensorData>)
  datatype GetResult = GetResult(msg: Option<SensorData>, items: seq<SensorData>)

  /** `osMessageQueuePut(q, &m, 0, 0)` on a queue holding `items`: priority 0
      puts the message behind every other one, timeout 0 means a full queue
      refuses it at once and is left as it was. */
  function Enqueue(items: seq<SensorData>, capacity: nat, m: SensorData): (r: PutResult)
    ensures r.status == Ok <==> |items| < capacity
    ensures r.status == Ok ==> r.items == items + [m]
    ensures r.status == ErrorResource ==> r.items == items
    ensures |items| <= capacity ==> |r.items| <= capacity
  {
    if |items| < capacity then PutResult(Ok, items + [m]) else PutResult(ErrorResource, items)
  }

  /** `osMessageQueueGet` on a queue holding `items`: the oldest message, or
      nothing when the queue is empty. */
  function Dequeue(items: seq<SensorData>): (r: GetResult)
    ensures r.msg.None? <==> items == []
    ensures r.msg.None? ==> r.items == items
    ensures r.msg.Some? ==> [r.msg.value] + r.items == items
  {
    if |items| == 0 then GetResult(None, items) else GetResult(Some(items[0]), items[1..])
  }

  /** The queue after a run of puts, one per message of `msgs`, in order. */
  function EnqueueAll(items: seq<SensorData>, capacity: nat, msgs: seq<SensorData>): seq<SensorData>
    decreases |msgs|
  {
    if msgs == [] then items
    else EnqueueAll(Enqueue(items, capacity, msgs[0]).items, capacity, msgs[1..])
  }

  /** The messages a run of gets obtains until the queue reports empty. */
  function DrainAll(items: seq<SensorData>): seq<SensorData>
    decreases |items|
  {
    var g := Dequeue(items);
    match g.msg
    case None => []
    case Some(m) => [m] + DrainAll(g.items)
  }

  /** A run of puts keeps the messages that fit, in the order they were put,
      and drops every later one: the capacity is never exceeded. */
  lemma {:induction false} EnqueueAllKeepsFirstThatFit(items: seq<SensorData>, capacity: nat, msgs: seq<SensorData>)
    requires |items| <= capacity
    ensures EnqueueAll(items, capacity, msgs) == (items + msgs)[..Min(capacity, |items| + |msgs|)]
    ensures |EnqueueAll(items, capacity, msgs)| <= capacity
    decreases |msgs|
  {
    if msgs == [] {
      assert (items + msgs)[..|items|] == items;
    } else {
      var next := Enqueue(items, capacity, msgs[0]).items;
      EnqueueAllKeepsFirstThatFit(next, capacity, msgs[1..]);
      if |items| < capacity {
        assert next + msgs[1..] == items + msgs;
      } else {
        assert (next + msgs[1..])[..capacity] == items;
        assert (items + msgs)[..capacity] == items;
      }
    }
  }

  /** Gets return the messages in the order the queue holds them and leave it empty. */
  lemma {:induction false} DrainAllIsFifo(items: seq<SensorData>)
    ensures DrainAll(items) == items
    decreases |items|
  {
    if items != [] {
      DrainAllIsFifo(items[1..]);
    }
  }

  /** Messages put into an empty queue with room for all of them come out of
      it in the order they were put. */
  lemma FifoRoundTrip(capacity: nat, msgs: seq<SensorData>)
    requires |msgs| <= capacity
    ensures DrainAll(EnqueueAll([], capacity, msgs)) == msgs
  {
    EnqueueAllKeepsFirstThatFit([], capacity, msgs);
    assert ([] + msgs)[..|msgs|] == msgs;
    DrainAllIsFifo(msgs);
  }

  /** The queue object created by `osMessageQueueNew(msgCount, sizeof(SensorData_t), NULL)`. */
  class MessageQueue {
    const capacity: nat
    var items: seq<SensorData>

    ghost predicate Valid()
      reads this
    {
      |items| <= capacity
    }

    constructor (msgCount: nat)
      requires msgCount > 0
      ensures Valid()
      ensures capacity == msgCount && items == []
    {
      capacity := msgCount;
      items := [];
    }

    /** `osMessageQueuePut(this, &m, 0, 0)`. */
    method Put(m: SensorData) returns (status: Status)
      requires Valid()
      modifies this
      ensures Valid()
      ensures status == Ok <==> |old(items)| < capacity
      ensures items == if status == Ok then old(items) + [m] else old(items)
      ensures PutResult(status, items) == Enqueue(old(items), capacity, m)
    {
      if |items| < capacity {
        items := items + [m];
        status := Ok;
      } else {
        status := ErrorResource;
      }
    }

    /** `osMessageQueueGet(this, &msg, NULL, timeout)`: with timeout 0 the
        call returns at once; with `osWaitForever` an empty queue keeps the
        caller suspended, which this single step reports as `None`. */
    method Get() returns (msg: Option<SensorData>)
      requires Valid()
      modifies this
      ensures Valid()
      ensures msg.None? <==> old(items) == []
      ensures msg.Some? ==> msg.value == old(items)[0] && items == old(items)[1..]
      ensures msg.None? ==> items == old(items)
      ensures GetResult(msg, items) == Dequeue(old(items))
    {
      if |items| == 0 {
        msg := None;
      } else {
        msg := Some(items[0]);
        items := items[1..];
      }
    }
  }
}
