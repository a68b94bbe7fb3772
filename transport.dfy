/** The register transport (`INTERFACE`): reads with a bounded retry, writes
    with a single attempt, and the 8- and 16-bit accessors built on them.
    16-bit registers travel big-endian: the most significant byte first. */
module Transport {
  import opened Bits
  import opened Bus

  const MAX_READ_ATTEMPTS: nat := 3
  const READ_RETRY_DELAY_MS: nat := 10

  /** Direction of a register transfer. */
  datatype Dir = Rd | Wr

  /** One call of `read_register` or `write_register` as its caller sees it:
      the register, the bytes read (the buffer after the last attempt) or
      written, and the status returned. */
  datatype Transfer = Transfer(dir: Dir, reg: bv8, data: seq<u8>, err: Err)

  // ---------------------------------------------------------------------------
  // Specification of the read retry

  /** Number of bus reads a `read_register` makes when the bus answers from
      transaction `k` on and `left` attempts remain. */
  function RetryAttempts(script: nat -> Reply, k: nat, left: nat): (n: nat)
    ensures left > 0 ==> 1 <= n <= left
    ensures left == 0 ==> n == 0
    decreases left
  {
    if left == 0 then 0
    else if script(k).err == ESP_OK then 1
    else 1 + RetryAttempts(script, k + 1, left - 1)
  }

  /** The bus operations of that `read_register`: a read per attempt, each
      failed one followed by a delay of READ_RETRY_DELAY_MS. */
  function RetryTrace(script: nat -> Reply, k: nat, left: nat, reg: bv8, len: nat): seq<Op>
    decreases left
  {
    if left == 0 then []
    else if script(k).err == ESP_OK then [ReadOp(reg, len)]
    else [ReadOp(reg, len), DelayOp(READ_RETRY_DELAY_MS)] + RetryTrace(script, k + 1, left - 1, reg, len)
  }

  /** The trace of `n` failed attempts: a read then a delay, `n` times. */
  function Failures(n: nat, reg: bv8, len: nat): (ops: seq<Op>)
    ensures |ops| == 2 * n
  {
    if n == 0 then [] else [ReadOp(reg, len), DelayOp(READ_RETRY_DELAY_MS)] + Failures(n - 1, reg, len)
  }

  /** One more failure appends one more read and one more delay. */
  lemma {:induction false} FailuresSnoc(n: nat, reg: bv8, len: nat)
    ensures Failures(n + 1, reg, len) == Failures(n, reg, len) + [ReadOp(reg, len), DelayOp(READ_RETRY_DELAY_MS)]
  {
    if n > 0 {
      FailuresSnoc(n - 1, reg, len);
    }
  }

  /** Every even position of a failure trace is a read, every odd one a delay. */
  lemma {:induction false} FailuresShape(n: nat, reg: bv8, len: nat)
    ensures forall i :: 0 <= i < n ==>
              Failures(n, reg, len)[2 * i] == ReadOp(reg, len)
              && Failures(n, reg, len)[2 * i + 1] == DelayOp(READ_RETRY_DELAY_MS)
  {
    if n > 0 {
      FailuresShape(n - 1, reg, len);
      forall i | 0 <= i < n
        ensures Failures(n, reg, len)[2 * i] == ReadOp(reg, len)
        ensures Failures(n, reg, len)[2 * i + 1] == DelayOp(READ_RETRY_DELAY_MS)
      {
        if i > 0 {
          assert 2 * i == 2 * (i - 1) + 2;
        }
      }
    }
  }

  /** The first success, after `a` failures, ends the read: `a + 1` attempts
      whose trace is the failures followed by that one read. */
  lemma {:induction false} RetryFirstSuccess(script: nat -> Reply, k: nat, left: nat, a: nat, reg: bv8, len: nat)
    requires a < left
    requires forall i :: k <= i < k + a ==> script(i).err != ESP_OK
    requires script(k + a).err == ESP_OK
    ensures RetryAttempts(script, k, left) == a + 1
    ensures RetryTrace(script, k, left, reg, len) == Failures(a, reg, len) + [ReadOp(reg, len)]
    decreases a
  {
    if a > 0 {
      RetryFirstSuccess(script, k + 1, left - 1, a - 1, reg, len);
    }
  }

  /** When every attempt fails, all of them are made and the trace is one
      read and one delay per attempt. */
  lemma {:induction false} RetryAllFail(script: nat -> Reply, k: nat, left: nat, reg: bv8, len: nat)
    requires forall i :: k <= i < k + left ==> script(i).err != ESP_OK
    ensures RetryAttempts(script, k, left) == left
    ensures RetryTrace(script, k, left, reg, len) == Failures(left, reg, len)
    decreases left
  {
    if left > 0 {
      RetryAllFail(script, k + 1, left - 1, reg, len);
    }
  }

  /** Every attempt before the last one failed, and the last one is either a
      success or the last attempt allowed. */
  lemma {:induction false} RetryStopsAtFirstSuccess(script: nat -> Reply, k: nat, left: nat)
    requires left > 0
    ensures forall i :: k <= i < k + RetryAttempts(script, k, left) - 1 ==> script(i).err != ESP_OK
    ensures script(k + RetryAttempts(script, k, left) - 1).err == ESP_OK
            || RetryAttempts(script, k, left) == left
    decreases left
  {
    if script(k).err != ESP_OK && left > 1 {
      RetryStopsAtFirstSuccess(script, k + 1, left - 1);
    }
  }

  /** A read reports success exactly when one of its attempts succeeded. */
  lemma {:induction false} RetrySucceedsIffSomeAttemptDoes(script: nat -> Reply, k: nat, left: nat)
    requires left > 0
    ensures script(k + RetryAttempts(script, k, left) - 1).err == ESP_OK
            <==> exists i :: k <= i < k + left && script(i).err == ESP_OK
    decreases left
  {
    if script(k).err != ESP_OK && left > 1 {
      RetrySucceedsIffSomeAttemptDoes(script, k + 1, left - 1);
    }
  }

  /** The number of bus reads in a trace. */
  function ReadCount(ops: seq<Op>): (n: nat)
    ensures n <= |ops|
  {
    if ops == [] then 0 else (if ops[0].ReadOp? then 1 else 0) + ReadCount(ops[1..])
  }

  /** A read makes exactly one bus read per attempt and never writes. */
  lemma {:induction false} RetryTraceReads(script: nat -> Reply, k: nat, left: nat, reg: bv8, len: nat)
    ensures ReadCount(RetryTrace(script, k, left, reg, len)) == RetryAttempts(script, k, left)
    ensures forall i :: 0 <= i < |RetryTrace(script, k, left, reg, len)| ==>
              !RetryTrace(script, k, left, reg, len)[i].WriteOp?
    decreases left
  {
    if left > 0 && script(k).err != ESP_OK {
      RetryTraceReads(script, k + 1, left - 1, reg, len);
      var rest := RetryTrace(script, k + 1, left - 1, reg, len);
      var t := [ReadOp(reg, len), DelayOp(READ_RETRY_DELAY_MS)] + rest;
      assert t[1..] == [DelayOp(READ_RETRY_DELAY_MS)] + rest;
      assert t[1..][1..] == rest;
    }
  }

  // ---------------------------------------------------------------------------
  // Big-endian words

  /** The 16-bit value of a big-endian byte pair: `(hi << 8) | lo`. */
  function BeWord(hi: u8, lo: u8): (w: u16)
    ensures w / 256 == hi && w % 256 == lo
  {
    hi * 256 + lo
  }

  /** The bytes `write_u16` sends for a word: MSB first, then LSB. */
  function BeBytes(w: u16): (s: seq<u8>)
    ensures |s| == 2 && BeWord(s[0], s[1]) == w
  {
    [w / 256, w % 256]
  }

  /** Reading back the bytes of a word gives the bytes that were sent. */
  lemma BeBytesOfWord(hi: u8, lo: u8)
    ensures BeBytes(BeWord(hi, lo)) == [hi, lo]
  {
  }

  // ---------------------------------------------------------------------------
  // The transport

  /** `INTERFACE`: the low-level register access every functional group of
      the driver builds on, over the bus it shares with the other groups.
      Besides the bus, the model keeps every `read_register`/`write_register`
      call, in order, in `transfers`. */
  datatype Interface = Interface(dev: I2CDevices, transfers: seq<Transfer>)

  /** `INTERFACE(i2c)`: a transport over `dev` that has made no transfer yet. */
  function Open(dev: I2CDevices): (io: Interface)
    ensures io.dev == dev && io.transfers == []
  {
    Interface(dev, [])
  }

  /** `read_register`: up to MAX_READ_ATTEMPTS reads, returning at the first
      success; a delay follows every failed attempt; when all fail, the
      error of the last attempt is returned. */
  method ReadRegister(io: Interface, reg: bv8, len: nat) returns (err: Err, data: seq<u8>, io': Interface)
    ensures io'.dev.script == io.dev.script
    ensures io'.dev.count == io.dev.count + RetryAttempts(io.dev.script, io.dev.count, MAX_READ_ATTEMPTS)
    ensures io'.dev.trace == io.dev.trace + RetryTrace(io.dev.script, io.dev.count, MAX_READ_ATTEMPTS, reg, len)
    ensures err == io.dev.script(io'.dev.count - 1).err
    ensures data == BufferOf(io.dev.script(io'.dev.count - 1), len)
    ensures io'.transfers == io.transfers + [Transfer(Rd, reg, data, err)]
  {
    var k := io.dev.count;
    var script := io.dev.script;
    var dev := io.dev;
    err := ESP_FAIL;
    data := [];
    var attempt := 0;
    while attempt < MAX_READ_ATTEMPTS
      invariant 0 <= attempt <= MAX_READ_ATTEMPTS
      invariant dev.script == script
      invariant dev.count == k + attempt
      invariant dev.trace == io.dev.trace + Failures(attempt, reg, len)
      invariant forall i :: k <= i < k + attempt ==> script(i).err != ESP_OK
      invariant attempt > 0 ==> err == script(k + attempt - 1).err
      invariant attempt > 0 ==> data == BufferOf(script(k + attempt - 1), len)
    {
      err, data, dev := Read(dev, reg, len);
      if err == ESP_OK {
        RetryFirstSuccess(script, k, MAX_READ_ATTEMPTS, attempt, reg, len);
        break;
      }
      dev := Delay(dev, READ_RETRY_DELAY_MS);
      FailuresSnoc(attempt, reg, len);
      attempt := attempt + 1;
    }
    if attempt == MAX_READ_ATTEMPTS {
      RetryAllFail(script, k, MAX_READ_ATTEMPTS, reg, len);
    }
    io' := Interface(dev, io.transfers + [Transfer(Rd, reg, data, err)]);
  }

  /** `write_register`: exactly one bus write, its status returned unchanged. */
  method WriteRegister(io: Interface, reg: bv8, data: seq<u8>) returns (err: Err, io': Interface)
    ensures err == io.dev.script(io.dev.count).err
    ensures io'.dev == io.dev.(count := io.dev.count + 1, trace := io.dev.trace + [WriteOp(reg, data)])
    ensures io'.transfers == io.transfers + [Transfer(Wr, reg, data, err)]
  {
    var dev;
    err, dev := Write(io.dev, reg, data);
    io' := Interface(dev, io.transfers + [Transfer(Wr, reg, data, err)]);
  }

  /** `read_u8`: a one-byte read; `out` is the buffer the bus filled. */
  method ReadU8(io: Interface, reg: bv8) returns (err: Err, out: u8, io': Interface)
    ensures io'.transfers == io.transfers + [Transfer(Rd, reg, [out], err)]
    ensures io'.dev.script == io.dev.script
    ensures io'.dev.count - io.dev.count == RetryAttempts(io.dev.script, io.dev.count, MAX_READ_ATTEMPTS)
    ensures io'.dev.trace == io.dev.trace + RetryTrace(io.dev.script, io.dev.count, MAX_READ_ATTEMPTS, reg, 1)
    ensures err == io.dev.script(io'.dev.count - 1).err
    ensures out == io.dev.script(io'.dev.count - 1).byteAt(0)
  {
    var data;
    err, data, io' := ReadRegister(io, reg, 1);
    out := data[0];
    assert data == [out];
  }

  /** `write_u8`: one byte to one register address. */
  method WriteU8(io: Interface, reg: bv8, value: u8) returns (err: Err, io': Interface)
    ensures err == io.dev.script(io.dev.count).err
    ensures io'.dev == io.dev.(count := io.dev.count + 1, trace := io.dev.trace + [WriteOp(reg, [value])])
    ensures io'.transfers == io.transfers + [Transfer(Wr, reg, [value], err)]
  {
    err, io' := WriteRegister(io, reg, [value]);
  }

  /** `read_u16`: a two-byte big-endian read; `out` keeps its value when
      the read fails. */
  method ReadU16(io: Interface, reg: bv8, out: u16) returns (err: Err, out': u16, io': Interface)
    ensures |io'.transfers| == |io.transfers| + 1 && io'.transfers == io.transfers + [io'.transfers[|io.transfers|]]
    ensures var t := io'.transfers[|io.transfers|];
            t.dir == Rd && t.reg == reg && |t.data| == 2 && t.err == err
            && out' == (if err == ESP_OK then BeWord(t.data[0], t.data[1]) else out)
    ensures io'.dev.script == io.dev.script
    ensures io'.dev.count - io.dev.count == RetryAttempts(io.dev.script, io.dev.count, MAX_READ_ATTEMPTS)
    ensures io'.dev.trace == io.dev.trace + RetryTrace(io.dev.script, io.dev.count, MAX_READ_ATTEMPTS, reg, 2)
    ensures err == io.dev.script(io'.dev.count - 1).err
    ensures err == ESP_OK ==> out' == BeWord(io.dev.script(io'.dev.count - 1).byteAt(0), io.dev.script(io'.dev.count - 1).byteAt(1))
  {
    var raw;
    err, raw, io' := ReadRegister(io, reg, 2);
    if err != ESP_OK {
      return err, out, io';
    }
    out' := BeWord(raw[0], raw[1]);
  }

  /** `read_s16`: the same big-endian word, reinterpreted as signed. */
  method ReadS16(io: Interface, reg: bv8, out: i16) returns (err: Err, out': i16, io': Interface)
    ensures |io'.transfers| == |io.transfers| + 1 && io'.transfers == io.transfers + [io'.transfers[|io.transfers|]]
    ensures var t := io'.transfers[|io.transfers|];
            t.dir == Rd && t.reg == reg && |t.data| == 2 && t.err == err
            && out' == (if err == ESP_OK then Signed16(BeWord(t.data[0], t.data[1])) else out)
    ensures io'.dev.script == io.dev.script
    ensures io'.dev.count - io.dev.count == RetryAttempts(io.dev.script, io.dev.count, MAX_READ_ATTEMPTS)
    ensures io'.dev.trace == io.dev.trace + RetryTrace(io.dev.script, io.dev.count, MAX_READ_ATTEMPTS, reg, 2)
    ensures err == io.dev.script(io'.dev.count - 1).err
    ensures err == ESP_OK ==> out' == Signed16(BeWord(io.dev.script(io'.dev.count - 1).byteAt(0), io.dev.script(io'.dev.count - 1).byteAt(1)))
  {
    var raw;
    err, raw, io' := ReadRegister(io, reg, 2);
    if err != ESP_OK {
      return err, out, io';
    }
    out' := Signed16(BeWord(raw[0], raw[1]));
  }

  /** `write_u16`: the word as `[value >> 8, value & 0xFF]` in one write. */
  method WriteU16(io: Interface, reg: bv8, value: u16) returns (err: Err, io': Interface)
    ensures err == io.dev.script(io.dev.count).err
    ensures io'.dev == io.dev.(count := io.dev.count + 1, trace := io.dev.trace + [WriteOp(reg, BeBytes(value))])
    ensures io'.transfers == io.transfers + [Transfer(Wr, reg, BeBytes(value), err)]
  {
    err, io' := WriteRegister(io, reg, BeBytes(value));
  }
}
