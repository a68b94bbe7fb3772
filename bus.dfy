/** The I2C bus primitive the driver talks through (the `I2CDevices` class of
    the repository, whose code is not part of this model). It is modelled as an
    oracle: the k-th transaction on the bus gets the k-th scripted reply, and
    every transaction and every task delay is appended to a trace. The device
    is a value: each operation takes the device as it was and returns it as
    it is afterwards. */
module Bus {
  import opened Bits

  /** `esp_err_t`: an ESP-IDF status code. */
  type Err = int

  const ESP_OK: Err := 0
  const ESP_FAIL: Err := -1
  const ESP_ERR_INVALID_STATE: Err := 0x103
  const ESP_ERR_TIMEOUT: Err := 0x107
  const ESP_ERR_INVALID_RESPONSE: Err := 0x108

  /** What the bus answers to one transaction: a status and, for a read, the
      byte it leaves at each position of the caller's buffer. */
  datatype Reply = Reply(err: Err, byteAt: nat -> u8)

  /** One entry of the bus trace: a transaction, or a `vTaskDelay` of the
      calling task. */
  datatype Op =
    | ReadOp(reg: bv8, len: nat)
    | WriteOp(reg: bv8, data: seq<u8>)
    | DelayOp(ms: nat)
    | TickDelayOp(ticks: nat)

  /** The first `len` bytes a reply puts in a read buffer. */
  function BufferOf(r: Reply, len: nat): (s: seq<u8>)
    ensures |s| == len
    ensures forall i :: 0 <= i < len ==> s[i] == r.byteAt(i)
  {
    seq<u8>(len, (i: nat) => r.byteAt(i))
  }

  /** The bus: the scripted reply of the k-th transaction (reads and writes
      counted together), the number of transactions performed so far, and
      every transaction and delay in order. */
  datatype I2CDevices = I2CDevices(script: nat -> Reply, count: nat, trace: seq<Op>)

  /** A bus on which nothing has happened yet. */
  function Fresh(script: nat -> Reply): (d: I2CDevices)
    ensures d.script == script && d.count == 0 && d.trace == []
  {
    I2CDevices(script, 0, [])
  }

  /** `i2c.read(reg, data, len)`: one read transaction. */
  method Read(d: I2CDevices, reg: bv8, len: nat) returns (err: Err, data: seq<u8>, d': I2CDevices)
    ensures err == d.script(d.count).err
    ensures data == BufferOf(d.script(d.count), len)
    ensures d' == d.(count := d.count + 1, trace := d.trace + [ReadOp(reg, len)])
  {
    var reply := d.script(d.count);
    err := reply.err;
    data := BufferOf(reply, len);
    d' := d.(count := d.count + 1, trace := d.trace + [ReadOp(reg, len)]);
  }

  /** `i2c.write(reg, data, len)`: one write transaction. */
  method Write(d: I2CDevices, reg: bv8, data: seq<u8>) returns (err: Err, d': I2CDevices)
    ensures err == d.script(d.count).err
    ensures d' == d.(count := d.count + 1, trace := d.trace + [WriteOp(reg, data)])
  {
    err := d.script(d.count).err;
    d' := d.(count := d.count + 1, trace := d.trace + [WriteOp(reg, data)]);
  }

  /** `vTaskDelay(pdMS_TO_TICKS(ms))`, recorded in the trace; no transaction. */
  method Delay(d: I2CDevices, ms: nat) returns (d': I2CDevices)
    ensures d' == d.(trace := d.trace + [DelayOp(ms)])
  {
    d' := d.(trace := d.trace + [DelayOp(ms)]);
  }

  /** `vTaskDelay(ticks)` with a raw tick count, recorded in the trace. */
  method DelayTicks(d: I2CDevices, ticks: nat) returns (d': I2CDevices)
    ensures d' == d.(trace := d.trace + [TickDelayOp(ticks)])
  {
    d' := d.(trace := d.trace + [TickDelayOp(ticks)]);
  }
}
