/** The shape shared by every bulk operation of the driver (`get()`, `set()`,
    `get_flags()`, `get_status()`, `CTRL::get()` and the group methods under
    them): a fixed list of registers is transferred in order through
    `RETURN_IF_ERROR`, so the operation stops at the first transfer that
    fails and returns its error. Nothing is rolled back: registers before the
    failure keep their new values and registers after it are untouched.
    A bulk operation hands back, as a ghost result, the transfers `ts` it
    made; its log grew by exactly `ts`.

    `Outcome` gives the status such an operation returns for the transfers
    it made; `RanOkIff` restates it transfer by transfer. */
module Groups {
  import opened Bits
  import opened Bus
  import opened Transport

  datatype Option<T> = None | Some(value: T)

  /** One register of a group: its address and its width in bytes. */
  datatype Slot = Slot(addr: bv8, width: nat)

  /** `t` is the transfer `slot` calls for in direction `dir`. */
  ghost predicate Matches(t: Transfer, slot: Slot, dir: Dir)
  {
    t.dir == dir && t.reg == slot.addr && |t.data| == slot.width
  }

  /** A bulk operation over `slots` that has so far made the transfers `ts`,
      all of them successful: they are the first `|ts|` slots in order. */
  ghost predicate Prefix(ts: seq<Transfer>, slots: seq<Slot>, dir: Dir)
  {
    |ts| <= |slots| && forall i :: 0 <= i < |ts| ==> Matches(ts[i], slots[i], dir) && ts[i].err == ESP_OK
  }

  /** The status a bulk operation over `slots` returns when it made the
      transfers `ts`: a successful prefix, then one more transfer for the
      next slot, whose status is returned; the operation ran short of the
      whole list only because that status is an error. `None` when `ts` is
      not the transfers of such a run. */
  ghost function Outcome(ts: seq<Transfer>, slots: seq<Slot>, dir: Dir): Option<Err>
  {
    if 0 < |ts| <= |slots|
       && Prefix(ts[..|ts| - 1], slots, dir)
       && Matches(ts[|ts| - 1], slots[|ts| - 1], dir)
       && (|ts| < |slots| ==> ts[|ts| - 1].err != ESP_OK)
    then Some(ts[|ts| - 1].err)
    else None
  }

  /** The transfers `ts` are those of a bulk operation over `slots` that
      returned `err`. */
  ghost predicate Ran(ts: seq<Transfer>, slots: seq<Slot>, dir: Dir, err: Err)
  {
    Outcome(ts, slots, dir) == Some(err)
  }

  /** A bulk operation succeeds exactly when it transferred every slot and
      every transfer succeeded; it fails exactly when some transfer failed,
      and then that transfer is the last one it made. Every transfer is the
      one its slot calls for. */
  lemma RanOkIff(ts: seq<Transfer>, slots: seq<Slot>, dir: Dir, err: Err)
    requires Ran(ts, slots, dir, err)
    ensures forall i :: 0 <= i < |ts| ==> Matches(ts[i], slots[i], dir)
    ensures err == ESP_OK <==> |ts| == |slots| && forall i :: 0 <= i < |ts| ==> ts[i].err == ESP_OK
    ensures err != ESP_OK <==> exists i :: 0 <= i < |ts| && ts[i].err != ESP_OK
    ensures forall i :: 0 <= i < |ts| && ts[i].err != ESP_OK ==> i == |ts| - 1
  {
    var init := ts[..|ts| - 1];
    assert forall i :: 0 <= i < |init| ==> init[i] == ts[i];
    if err != ESP_OK {
      assert ts[|ts| - 1].err != ESP_OK;
    }
  }

  /** One more `RETURN_IF_ERROR` step: the next slot's transfer `t` either
      lets the operation go on, or ends it because it failed or was the
      last one. The log that held `ts` after `log0` now also holds `t`. */
  lemma Advance(log0: seq<Transfer>, ts: seq<Transfer>, t: Transfer, slots: seq<Slot>, dir: Dir)
    requires Prefix(ts, slots, dir) && |ts| < |slots| && Matches(t, slots[|ts|], dir)
    ensures (log0 + ts) + [t] == log0 + (ts + [t])
    ensures (ts + [t])[..|ts|] == ts
    ensures t.err == ESP_OK ==> Prefix(ts + [t], slots, dir)
    ensures t.err != ESP_OK || |ts| + 1 == |slots| ==> Ran(ts + [t], slots, dir, t.err)
  {
    assert (ts + [t])[..|ts|] == ts;
    assert forall i :: 0 <= i < |ts| ==> (ts + [t])[i] == ts[i];
  }

  /** A log that grew by `a` and then by `b` grew by `a + b`. */
  lemma Appended(log0: seq<Transfer>, a: seq<Transfer>, b: seq<Transfer>)
    ensures (log0 + a) + b == log0 + (a + b)
  {
  }

  /** A bulk operation that succeeded, followed by another, is one bulk
      operation over the concatenated list. */
  lemma RanConcat(a: seq<Transfer>, b: seq<Transfer>, first: seq<Slot>, second: seq<Slot>, dir: Dir, err: Err)
    requires Ran(a, first, dir, ESP_OK)
    requires Ran(b, second, dir, err)
    ensures Ran(a + b, first + second, dir, err)
  {
    RanOkIff(a, first, dir, ESP_OK);
    RanOkIff(b, second, dir, err);
    var ab, fs := a + b, first + second;
    var init := ab[..|ab| - 1];
    forall i | 0 <= i < |init|
      ensures Matches(init[i], fs[i], dir) && init[i].err == ESP_OK
    {
      if i >= |a| {
        assert init[i] == b[i - |a|] && fs[i] == second[i - |a|];
      } else {
        assert init[i] == a[i] && fs[i] == first[i];
      }
    }
    assert ab[|ab| - 1] == b[|b| - 1] && fs[|ab| - 1] == second[|b| - 1];
  }

  /** A bulk operation that failed has also run a prefix of any longer list. */
  lemma RanWiden(ts: seq<Transfer>, slots: seq<Slot>, more: seq<Slot>, dir: Dir, err: Err)
    requires Ran(ts, slots, dir, err) && err != ESP_OK
    ensures Ran(ts, slots + more, dir, err)
  {
    assert forall i :: 0 <= i < |ts| ==> (slots + more)[i] == slots[i];
  }

  /** Every transfer of `ts` carried the bytes listed for its position. */
  ghost predicate Carried(ts: seq<Transfer>, payloads: seq<seq<u8>>)
  {
    |ts| <= |payloads| && forall i :: 0 <= i < |ts| ==> ts[i].data == payloads[i]
  }

  /** A write that carried the next payload extends `Carried`. */
  lemma CarriedStep(ts: seq<Transfer>, t: Transfer, payloads: seq<seq<u8>>)
    requires Carried(ts, payloads) && |ts| < |payloads| && t.data == payloads[|ts|]
    ensures Carried(ts + [t], payloads)
  {
    assert forall i :: 0 <= i < |ts| ==> (ts + [t])[i] == ts[i];
  }

  /** Two bulk writes in a row, the first one complete, carried the
      concatenated payloads. */
  lemma CarriedConcat(a: seq<Transfer>, b: seq<Transfer>, first: seq<seq<u8>>, second: seq<seq<u8>>)
    requires Carried(a, first) && |a| == |first| && Carried(b, second)
    ensures Carried(a + b, first + second)
  {
    forall i | 0 <= i < |a + b|
      ensures (a + b)[i].data == (first + second)[i]
    {
      if i >= |a| {
        assert (a + b)[i] == b[i - |a|] && (first + second)[i] == second[i - |a|];
      }
    }
  }

  /** A write that stopped early carried a prefix of any longer list. */
  lemma CarriedWiden(ts: seq<Transfer>, payloads: seq<seq<u8>>, more: seq<seq<u8>>)
    requires Carried(ts, payloads)
    ensures Carried(ts, payloads + more)
  {
    assert forall i :: 0 <= i < |ts| ==> (payloads + more)[i] == payloads[i];
  }

  /** `b & keep`: the byte `set_raw` stores for a register with reserved-bit
      mask `keep`. */
  function Kept(b: u8, keep: bv8): u8
  {
    ((b as bv8) & keep) as int
  }

  /** What a read leaves in an 8-bit register whose `set_raw` stores the
      byte as it is: the byte read if the transfer succeeded, the previous
      value otherwise. */
  ghost function Got8(prev: u8, t: Transfer): u8
  {
    if t.err == ESP_OK && |t.data| == 1 then t.data[0] else prev
  }

  /** The same for an 8-bit register whose `set_raw` masks the byte with
      `keep`. */
  ghost function GotKept8(prev: u8, t: Transfer, keep: bv8): u8
  {
    if t.err == ESP_OK && |t.data| == 1 then Kept(t.data[0], keep) else prev
  }

  /** The same for a 16-bit register; `set_raw` keeps the word modulo
      `modulus`. */
  ghost function Got16(prev: u16, t: Transfer, modulus: nat): u16
    requires 0 < modulus <= 0x1_0000
  {
    if t.err == ESP_OK && |t.data| == 2 then BeWord(t.data[0], t.data[1]) % modulus else prev
  }

  /** What a bulk read leaves in an 8-bit register whose transfer is number
      `at` of `ts`; a register the read never reached keeps `prev`. */
  ghost function ReadBack8(prev: u8, ts: seq<Transfer>, at: nat): u8
  {
    if at < |ts| then Got8(prev, ts[at]) else prev
  }

  /** The same for an 8-bit register that `set_raw` masks with `keep`. */
  ghost function ReadBackKept8(prev: u8, ts: seq<Transfer>, at: nat, keep: bv8): u8
  {
    if at < |ts| then GotKept8(prev, ts[at], keep) else prev
  }

  /** The same for a 16-bit register. */
  ghost function ReadBack16(prev: u16, ts: seq<Transfer>, at: nat, modulus: nat): u16
    requires 0 < modulus <= 0x1_0000
  {
    if at < |ts| then Got16(prev, ts[at], modulus) else prev
  }
}
