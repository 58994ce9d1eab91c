/** One iteration of the sampling task `StartSensorTask`: read the sensor,
    publish the reading best-effort, sleep for the sample period. */
module Sensor {
  import opened Types
  import opened Queue

  /** The argument of `osDelay` at the end of every sampling iteration. */
  const SamplePeriodMs: uint32 := 1000

  /** The queue after one sampling iteration. `reading` is what the driver
      call produced: `Some(lux)` when `tsl2561_read_lux` returned `HAL_OK`,
      `None` otherwise. The status of the put is not looked at. */
  function Publish(items: seq<SensorData>, capacity: nat, reading: Option<uint32>): (r: seq<SensorData>)
    ensures reading.None? ==> r == items
    ensures reading.Some? && |items| < capacity ==> r == items + [SensorData(reading.value)]
    ensures reading.Some? && |items| >= capacity ==> r == items
  {
    match reading
    case None => items
    case Some(lux) => Enqueue(items, capacity, SensorData(lux)).items
  }

  /** The readings a run of driver calls delivers, in order. */
  function Readings(samples: seq<Option<uint32>>): seq<SensorData>
    decreases |samples|
  {
    if samples == [] then []
    else (match samples[0] case None => [] case Some(lux) => [SensorData(lux)]) + Readings(samples[1..])
  }

  /** The queue after one sampling iteration per element of `samples`, with no
      consumer running in between. */
  function SensorRun(items: seq<SensorData>, capacity: nat, samples: seq<Option<uint32>>): seq<SensorData>
    decreases |samples|
  {
    if samples == [] then items
    else SensorRun(Publish(items, capacity, samples[0]), capacity, samples[1..])
  }

  /** A run of sampling iterations puts exactly the successful readings, in
      order: failed samples publish nothing. */
  lemma {:induction false} SensorRunPutsReadings(items: seq<SensorData>, capacity: nat, samples: seq<Option<uint32>>)
    ensures SensorRun(items, capacity, samples) == EnqueueAll(items, capacity, Readings(samples))
    decreases |samples|
  {
    if samples != [] {
      var next := Publish(items, capacity, samples[0]);
      SensorRunPutsReadings(next, capacity, samples[1..]);
      match samples[0]
      case None =>
        assert Readings(samples) == Readings(samples[1..]);
      case Some(lux) =>
        var rs := Readings(samples);
        assert rs == [SensorData(lux)] + Readings(samples[1..]);
        assert rs[0] == SensorData(lux) && rs[1..] == Readings(samples[1..]);
    }
  }

  /** Sampling never lets the queue hold more than its capacity; the readings
      that find it full are dropped, the earlier ones stay in order. */
  lemma SensorRunBounded(items: seq<SensorData>, capacity: nat, samples: seq<Option<uint32>>)
    requires |items| <= capacity
    ensures |SensorRun(items, capacity, samples)| <= capacity
    ensures SensorRun(items, capacity, samples)
         == (items + Readings(samples))[..Min(capacity, |items| + |Readings(samples)|)]
  {
    SensorRunPutsReadings(items, capacity, samples);
    EnqueueAllKeepsFirstThatFit(items, capacity, Readings(samples));
  }

  /** One iteration of `StartSensorTask` against the shared queue; returns
      the delay it then sleeps for. */
  method SensorTaskStep(q: MessageQueue, reading: Option<uint32>) returns (delayMs: uint32)
    requires q.Valid()
    modifies q
    ensures q.Valid()
    ensures reading.None? ==> q.items == old(q.items)
    ensures reading.Some? && |old(q.items)| < q.capacity ==> q.items == old(q.items) + [SensorData(reading.value)]
    ensures reading.Some? && |old(q.items)| >= q.capacity ==> q.items == old(q.items)
    ensures q.items == Publish(old(q.items), q.capacity, reading)
    ensures delayMs == SamplePeriodMs
  {
    if reading.Some? {
      var _ := q.Put(SensorData(reading.value));
    }
    delayMs := SamplePeriodMs;
  }
}
