/** One iteration of the actuation task `StartLedTask`: poll the queue without
    blocking, keep the newest reading, derive the blink delay from it, toggle
    the LED and sleep for that delay. */
module Led {
  import opened Types
  import opened Queue

  /** Readings above this are "bright". */
  const BrightThreshold: uint32 := 5000
  /** Readings below this are "dark". */
  const DarkThreshold: uint32 := 1000

  const FastBlinkMs: uint32 := 200
  const ModerateBlinkMs: uint32 := 500
  const SlowBlinkMs: uint32 := 800

  /** The value `blinkDelay` is declared with, before the first iteration. */
  const InitialBlinkMs: uint32 := 500

  /** The three light bands, each stated on its own. */
  predicate IsBright(lux: uint32) { lux > BrightThreshold }
  predicate IsDark(lux: uint32) { lux < DarkThreshold }
  predicate IsModerate(lux: uint32) { DarkThreshold <= lux <= BrightThreshold }

  /** The blink delay the task chooses for a reading: faster when brighter. */
  function BlinkDelay(lux: uint32): (d: uint32)
    ensures d == FastBlinkMs || d == ModerateBlinkMs || d == SlowBlinkMs
  {
    if lux > BrightThreshold then FastBlinkMs
    else if lux < DarkThreshold then SlowBlinkMs
    else ModerateBlinkMs
  }

  /** Every reading lies in exactly one band: no gap and no overlap. */
  lemma BandsPartition(lux: uint32)
    ensures IsBright(lux) || IsDark(lux) || IsModerate(lux)
    ensures !(IsBright(lux) && IsDark(lux))
    ensures !(IsBright(lux) && IsModerate(lux))
    ensures !(IsDark(lux) && IsModerate(lux))
  {
  }

  /** Each delay is chosen for exactly the readings of its band. */
  lemma BlinkDelayByBand(lux: uint32)
    ensures BlinkDelay(lux) == FastBlinkMs <==> IsBright(lux)
    ensures BlinkDelay(lux) == SlowBlinkMs <==> IsDark(lux)
    ensures BlinkDelay(lux) == ModerateBlinkMs <==> IsModerate(lux)
  {
  }

  /** The band edges: 999 and 0 are dark, 1000 and 5000 moderate, 5001 and
      the largest `uint32_t` bright. */
  lemma BlinkDelayAtBoundaries()
    ensures BlinkDelay(0) == 800 && BlinkDelay(999) == 800
    ensures BlinkDelay(1000) == 500 && BlinkDelay(5000) == 500
    ensures BlinkDelay(5001) == 200 && BlinkDelay(0xFFFF_FFFF) == 200
  {
  }

  /** A brighter reading never gives a slower blink. */
  lemma BlinkDelayAntitone(a: uint32, b: uint32)
    requires a <= b
    ensures BlinkDelay(b) <= BlinkDelay(a)
  {
  }

  /** The task's locals `lastData` and `blinkDelay`. */
  datatype LedState = LedState(lastData: SensorData, blinkDelay: uint32)

  /** `lastData = {0}`, `blinkDelay = 500`. */
  const InitialLedState := LedState(SensorData(0), InitialBlinkMs)

  /** One iteration of `StartLedTask` as a function of its locals and the
      queue: the oldest message, if any, replaces `lastData`; `blinkDelay`
      is then recomputed from `lastData` whatever it was before. */
  function LedStep(s: LedState, items: seq<SensorData>): (r: (LedState, seq<SensorData>))
    ensures items == [] ==> r.0.lastData == s.lastData && r.1 == items
    ensures items != [] ==> r.0.lastData == items[0] && r.1 == items[1..]
    ensures r.0.blinkDelay == BlinkDelay(r.0.lastData.lux)
  {
    var g := Dequeue(items);
    var last := match g.msg case Some(d) => d case None => s.lastData;
    (LedState(last, BlinkDelay(last.lux)), g.items)
  }

  /** On an empty queue a second iteration changes nothing a first one did not. */
  lemma EmptyStepIdempotent(s: LedState)
    ensures LedStep(LedStep(s, []).0, []) == LedStep(s, [])
  {
  }

  /** The first iteration on an empty queue blinks slowly (lux 0 is dark), and
      whatever the queue holds the initial 500 ms is replaced before the
      delay is used. */
  lemma FirstStep(items: seq<SensorData>)
    ensures LedStep(InitialLedState, []).0.blinkDelay == SlowBlinkMs
    ensures LedStep(InitialLedState, items).0.blinkDelay
         == if items == [] then SlowBlinkMs else BlinkDelay(items[0].lux)
  {
  }

  /** `n` iterations of the task with nothing published in between. */
  function LedRun(s: LedState, items: seq<SensorData>, n: nat): (LedState, seq<SensorData>)
    decreases n
  {
    if n == 0 then (s, items)
    else
      var r := LedStep(s, items);
      LedRun(r.0, r.1, n - 1)
  }

  /** Left alone, the task takes one message per iteration, oldest first,
      leaves the rest in order, and ends up holding the last message it took
      (or its old reading if it took none). */
  lemma {:induction false} LedRunDrains(s: LedState, items: seq<SensorData>, n: nat)
    ensures var k := Min(n, |items|);
      var r := LedRun(s, items, n);
      r.1 == items[k..] &&
      r.0.lastData == (if k == 0 then s.lastData else items[k - 1]) &&
      (n > 0 ==> r.0.blinkDelay == BlinkDelay(r.0.lastData.lux))
    decreases n
  {
    if n > 0 {
      var r := LedStep(s, items);
      LedRunDrains(r.0, r.1, n - 1);
      if items != [] {
        assert items[1..][Min(n - 1, |items| - 1)..] == items[Min(n, |items|)..];
      }
    }
  }

  /** The LED task's private state. */
  class LedTask {
    var lastData: SensorData
    var blinkDelay: uint32

    function State(): LedState
      reads this
    {
      LedState(lastData, blinkDelay)
    }

    constructor ()
      ensures State() == InitialLedState
    {
      lastData := SensorData(0);
      blinkDelay := InitialBlinkMs;
    }

    /** One iteration against the shared queue; returns the delay handed to
        `osDelay` after the LED is toggled. */
    method Step(q: MessageQueue) returns (delayMs: uint32)
      requires q.Valid()
      modifies this, q
      ensures q.Valid()
      ensures old(q.items) == [] ==> lastData == old(lastData) && q.items == old(q.items)
      ensures old(q.items) != [] ==> lastData == old(q.items)[0] && q.items == old(q.items)[1..]
      ensures (State(), q.items) == LedStep(old(State()), old(q.items))
      ensures delayMs == blinkDelay == BlinkDelay(lastData.lux)
    {
      var newData := q.Get();
      if newData.Some? {
        lastData := newData.value;
      }
      blinkDelay := BlinkDelay(lastData.lux);
      delayMs := blinkDelay;
    }
  }
}
