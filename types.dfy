/** Values shared by the three tasks of the light monitor. */
module Types {

  /** `uint32_t`: the width of a lux reading and of a delay in milliseconds. */
  newtype uint32 = x: int | 0 <= x < 0x1_0000_0000

  /** `SensorData_t`: one lux reading, copied by value into and out of the queue. */
  datatype SensorData = SensorData(lux: uint32)

  datatype Option<T> = None | Some(value: T)

  /** The `osStatus_t` results the queue calls produce as they are called here:
      `Ok` is `osOK`; `ErrorResource` is `osErrorResource`, what a put with
      timeout 0 returns on a full queue. (A get on an empty queue is reported
      as `None` by `Queue.MessageQueue.Get`.) */
  datatype Status = Ok | ErrorResource

  function Min(a: int, b: int): int
  {
    if a <= b then a else b
  }
}
