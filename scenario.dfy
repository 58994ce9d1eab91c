/** The three tasks run one iteration at a time against one shared queue:
    what a given interleaving of their steps produces. */
module Scenario {
  import opened Types
  import opened Queue
  import opened Sensor
  import opened Display
  import opened Led

  /** In an interleaving where the display task is not waiting while the
      samples arrive, three successful samples of 200, 3000 and 6000 lux fill
      an empty queue in order; the display then shows the oldest, and the LED
      task takes the other two, blinking at 500 ms and then 200 ms, and keeps
      6000 lux once the queue is empty. */
  lemma {:induction false} ThreeSamplesScenario(s: LedState)
    ensures var q := SensorRun([], SensorQueueCapacity, [Some(200), Some(3000), Some(6000)]);
      q == [SensorData(200), SensorData(3000), SensorData(6000)] &&
      var d := DisplayStep(q);
      d.0 == Some("Light: 200 lux") &&
      var l1 := LedStep(s, d.1);
      l1.0 == LedState(SensorData(3000), 500) &&
      var l2 := LedStep(l1.0, l1.1);
      l2.0 == LedState(SensorData(6000), 200) && l2.1 == [] &&
      LedStep(l2.0, l2.1).0 == l2.0
  {
    var samples: seq<Option<uint32>> := [Some(200), Some(3000), Some(6000)];
    var q := SensorRun([], SensorQueueCapacity, samples);
    SensorRunBounded([], SensorQueueCapacity, samples);
    assert Readings(samples) == [SensorData(200), SensorData(3000), SensorData(6000)];
    assert q == [SensorData(200), SensorData(3000), SensorData(6000)];
    assert Decimal(200) == "200" by {
      assert Decimal(2) == "2";
      assert Decimal(20) == "20";
    }
    assert FullLine(200) == "Light: 200 lux";
    assert FormatLine(200) == "Light: 200 lux";
    assert DisplayStep(q).1 == [SensorData(3000), SensorData(6000)];
  }

  /** A sixth sample on a queue nobody drains is dropped at once. */
  lemma SixthSampleDropped(r1: uint32, r2: uint32, r3: uint32, r4: uint32, r5: uint32, r6: uint32)
    ensures SensorRun([], SensorQueueCapacity, [Some(r1), Some(r2), Some(r3), Some(r4), Some(r5), Some(r6)])
         == [SensorData(r1), SensorData(r2), SensorData(r3), SensorData(r4), SensorData(r5)]
  {
    var samples := [Some(r1), Some(r2), Some(r3), Some(r4), Some(r5), Some(r6)];
    SensorRunBounded([], SensorQueueCapacity, samples);
    assert Readings(samples[5..]) == [SensorData(r6)];
    assert Readings(samples[4..]) == [SensorData(r5), SensorData(r6)];
    assert Readings(samples[3..]) == [SensorData(r4), SensorData(r5), SensorData(r6)];
    assert Readings(samples[2..]) == [SensorData(r3), SensorData(r4), SensorData(r5), SensorData(r6)];
    assert Readings(samples[1..]) == [SensorData(r2), SensorData(r3), SensorData(r4), SensorData(r5), SensorData(r6)];
    assert Readings(samples)
        == [SensorData(r1), SensorData(r2), SensorData(r3), SensorData(r4), SensorData(r5), SensorData(r6)];
  }

  /** One queued reading reaches exactly one of the two consumers: whichever
      of the display and the LED task runs first takes it, and the other
      finds the queue empty. */
  lemma SingleConsumerWins(x: SensorData, s: LedState)
    ensures var d := DisplayStep([x]);
      d.0 == Some(FormatLine(x.lux)) && d.1 == [] &&
      LedStep(s, d.1).0.lastData == s.lastData
    ensures var l := LedStep(s, [x]);
      l.0.lastData == x && l.1 == [] &&
      DisplayStep(l.1).0 == None
  {
  }
}
