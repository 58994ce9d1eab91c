# Light monitor task model

A Dafny model of the task logic of a FreeRTOS light monitor on an STM32 board
(`main_v0.34b.c`). The firmware runs three tasks over one shared CMSIS-RTOS v2
message queue of `SensorData_t` readings:

- the sampling task reads the TSL2561 lux sensor once a second and puts each
  successful reading into the queue without waiting;
- the display task waits for the next reading and writes
  `"Light: <lux> lux"`, cut to the 16 characters of a 17-byte buffer, to the LCD;
- the LED task polls the queue without waiting, keeps the newest reading it
  obtained (starting from 0 lux), and picks a blink delay of 200, 500 or 800 ms
  from it.

The model keeps each task's loop body as one step. Each step is written twice:

- as a pure function, which is the specification;
- as a method, which mutates the shared queue object (`Queue.MessageQueue`)
  and, for the LED task, the task's own state object (`Led.LedTask`).

Every method's postcondition ties its new state to the function. Lemmas about
the functions state what the firmware promises: the bands partition every
`uint32_t`, the queue is FIFO, the queue never exceeds its capacity, the
display line starts with `"Light: "`, is a prefix of the full text and has
`min(16, 11 + digits)` characters, the LED task keeps its old
reading when the queue is empty, and one queued reading reaches only one
consumer.

Files:

- `types.dfy`: `uint32`, `SensorData` and the queue status codes.
- `queue.dfy`: the queue contract as used: capacity 5, put with timeout 0
  and priority 0, get.
- `sensor.dfy`, `display.dfy`, `led.dfy`: one module per task.
- `scenario.dfy`: interleavings of the three steps.

The firmware ignores the results of `lcd_clear`, `lcd_set_cursor` and
`lcd_print` (main_v0.34b.c:98-100), so the model has no display error path.

`%lu` is applied to a `uint32_t`. On the 32-bit target `unsigned long` is 32
bits wide, so the model renders the value as it is.

## Model

| member | source | states |
|---|---|---|
| `Queue.MessageQueue.constructor` | main_v0.34b.c:42 | a new queue, created with a positive message count (5 here), is empty and has that count as its capacity |
| `Queue.MessageQueue.Put` | main_v0.34b.c:80 | a put with timeout 0 succeeds exactly when the queue has room; it then appends the message at the back, and otherwise leaves the queue unchanged and reports `osErrorResource`; the capacity is never exceeded |
| `Queue.MessageQueue.Get` | main_v0.34b.c:114 | a get finds nothing exactly when the queue is empty, leaving it unchanged; otherwise it returns the oldest message and keeps the rest in order |
| `Queue.Enqueue` | main_v0.34b.c:80 | a put with timeout 0 and priority 0 appends at the back exactly when fewer than capacity messages are held; otherwise the queue is unchanged and the status is `osErrorResource`; the capacity is never exceeded |
| `Queue.Dequeue` | main_v0.34b.c:114 | a get finds nothing exactly when the queue is empty, and then leaves it unchanged; otherwise the message it returns followed by the remaining queue is the old queue, so it takes the oldest message |
| `Queue.EnqueueAllKeepsFirstThatFit` | main_v0.34b.c:80 | a run of puts keeps the messages that fit, in put order, drops every later one, and never exceeds the capacity |
| `Queue.DrainAllIsFifo` | main_v0.34b.c:114 | repeated gets return exactly the queued messages, oldest first |
| `Queue.FifoRoundTrip` | main_v0.34b.c:80-94 | messages put into an empty queue with room for them all are got back in the order they were put |
| `Sensor.Publish` | main_v0.34b.c:78-81 | a failed read leaves the queue unchanged; a successful read appends the reading when there is room, and on a full queue is dropped with the queue unchanged |
| `Sensor.SensorRunPutsReadings` | main_v0.34b.c:76-83 | a run of sampling iterations puts exactly the successful readings, in order |
| `Sensor.SensorRunBounded` | main_v0.34b.c:76-83 | sampling never makes the queue hold more than its capacity; the queue holds its old contents followed by the earliest readings that fit, and later readings are dropped |
| `Sensor.SensorTaskStep` | main_v0.34b.c:73-84 | one sampling iteration changes the queue as `Publish` says (unchanged on a failed read or a full queue, reading appended otherwise) and then sleeps for 1000 ms |
| `Display.Decimal` | main_v0.34b.c:96 | `%lu` gives `NumDigits(n)` decimal digits with no leading zero |
| `Display.DecimalRoundTrip` | main_v0.34b.c:96 | reading the decimal rendering back gives the original value |
| `Display.NumDigitsBound` | main_v0.34b.c:96 | a value has at most k digits exactly when it is below 10^k |
| `Display.Snprintf` | main_v0.34b.c:96 | `snprintf` into a buffer of `size` bytes keeps a prefix of the formatted text of length `min(len, size - 1)` |
| `Display.FullLine` | main_v0.34b.c:96 | the untruncated text of `"Light: %lu lux"` is the label, then exactly the decimal rendering of lux, then the unit, with length `11 + digits(lux)` |
| `Display.FormatLine` | main_v0.34b.c:90-96 | the line is a prefix of `"Light: " + decimal(lux) + " lux"`, begins with `"Light: "`, and has length `min(16, 11 + digits(lux))` |
| `Display.ShownInFullIff` | main_v0.34b.c:90-96 | the whole text is shown exactly when the value has at most 5 digits; from 6 digits on the line is cut to 16 characters, shorter than the full text |
| `Display.ShownValueReadsBack` | main_v0.34b.c:96 | a value shown in full can be read back from the digits between label and unit |
| `Display.DisplayStep` | main_v0.34b.c:94-101 | the display is touched only when the get succeeds; it then shows the oldest reading's line and removes that reading; an empty queue is left unchanged |
| `Display.DisplayTaskStep` | main_v0.34b.c:87-103 | one display iteration against the shared queue behaves as `DisplayStep` |
| `Led.BlinkDelay` | main_v0.34b.c:119-125 | the delay is always one of 200, 500 and 800 ms |
| `Led.BandsPartition` | main_v0.34b.c:119-125 | every reading lies in exactly one of the bright (>5000), dark (<1000) and moderate (1000..5000) bands |
| `Led.BlinkDelayByBand` | main_v0.34b.c:119-125 | the delay is 200 exactly for bright, 800 exactly for dark, and 500 exactly for moderate readings |
| `Led.BlinkDelayAtBoundaries` | main_v0.34b.c:119-125 | 0 and 999 give 800; 1000 and 5000 give 500; 5001 and 0xFFFFFFFF give 200 |
| `Led.BlinkDelayAntitone` | main_v0.34b.c:119-125 | a brighter reading never gives a longer delay |
| `Led.LedStep` | main_v0.34b.c:113-125 | on an empty queue `lastData` and the queue are unchanged; otherwise `lastData` becomes the oldest message and the rest stays in order; `blinkDelay` is always recomputed from `lastData` |
| `Led.EmptyStepIdempotent` | main_v0.34b.c:113-117 | repeating an iteration on an empty queue changes neither `lastData` nor `blinkDelay` |
| `Led.FirstStep` | main_v0.34b.c:108-125 | the first iteration on an empty queue gives 800 ms; the initial 500 ms is always replaced before it is used |
| `Led.LedRunDrains` | main_v0.34b.c:111-128 | with no producer, n iterations remove the oldest min(n, length) messages in order; the task holds the last one removed, or its old reading if none was removed |
| `Led.LedTask.constructor` | main_v0.34b.c:108-109 | the task starts with `lastData` at 0 lux and `blinkDelay` at 500 |
| `Led.LedTask.Step` | main_v0.34b.c:111-128 | one LED iteration against the shared queue behaves as `LedStep`, and the delay it returns for `osDelay` is `BlinkDelay(lastData.lux)` |
| `Scenario.ThreeSamplesScenario` | main_v0.34b.c:76-128 | samples 200, 3000 and 6000 fill an empty queue in order; the display then shows "Light: 200 lux"; two LED iterations take 3000 (500 ms) and 6000 (200 ms); a further iteration keeps 6000 |
| `Scenario.SixthSampleDropped` | main_v0.34b.c:42-81 | with nobody draining, the sixth successful sample finds the queue full and is dropped |
| `Scenario.SingleConsumerWins` | main_v0.34b.c:94-116 | a single queued reading goes to whichever consumer runs first; the other finds the queue empty (the LED task keeps its old reading, the display is not touched) |

## Left out

- `main`, `SystemClock_Config`, `MX_GPIO_Init`, `MX_I2C1_Init`, thread attributes, priorities, stack sizes and `osKernelStart`: board configuration with no logic to state.
- `Error_Handler`: a non-terminating halt loop.
- The TSL2561 and LCD drivers are not part of this model. The sensor read is an `Option<uint32>` parameter (`Some` when the driver returns `HAL_OK`). The LCD output is the string the display step returns; clearing the screen and moving the cursor are not modelled.
- `HAL_GPIO_TogglePin`: the LED level is not modelled. The LED step returns only the delay it passes to `osDelay`.
- `osDelay` timing: the sampling step returns its 1000 ms period, but wall-clock time is not modelled.
- Concurrency: the tasks are modelled as single steps applied in some order to one shared queue value. Preemption, priorities and the scheduler are out of scope, and so are the internals of the queue's locking.
- `Queue.MessageQueue.Get`: the `osWaitForever` wait of the display task is modelled as a step that returns `None` and changes nothing on an empty queue (the task is still suspended); it does not capture that the call eventually returns once a message arrives.
- The CMSIS-RTOS queue beyond the contract used: message priorities other than 0, timeouts other than 0 and forever, the `msg_prio` output, and the byte copy of 4-byte items.
- A failed queue creation is not modelled: `osMessageQueueNew` returns NULL for a message count of 0 or when allocation fails, and the firmware never checks the handle (main_v0.34b.c:42); with a NULL handle every put and get would fail at once.
- The return value of `snprintf` (the untruncated length) is ignored by the firmware and is not modelled.
