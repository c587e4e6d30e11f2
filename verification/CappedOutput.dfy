/** The output cap of both module ABIs.

Models `cappedBuffer`, the output half of `runWASIModule`, and the packed result of
`runWasmcatModule` in internal/worker/engine.go. What the module writes, how it exits
and what its memory holds are arbitrary.
*/
module CappedOutput {
  import opened Text
  import opened ModuleIdentity

  datatype Buffer = Buffer(buf: Bytes, overflow: bool)

  function Put(max: int, b: Buffer, p: Bytes): Buffer {
    if max <= 0 then b.(buf := b.buf + p)
    else if b.overflow then b
    else if |b.buf| >= max then b.(overflow := true)
    else if |p| > max - |b.buf| then Buffer(b.buf + p[..max - |b.buf|], true)
    else b.(buf := b.buf + p)
  }

  /** The buffer after a sequence of writes. */
  function PutAll(max: int, writes: seq<Bytes>): Buffer {
    if writes == [] then Buffer([], false) else Put(max, PutAll(max, writes[..|writes| - 1]), writes[|writes| - 1])
  }

  function Concat(writes: seq<Bytes>): Bytes {
    if writes == [] then [] else Concat(writes[..|writes| - 1]) + writes[|writes| - 1]
  }

  /** An empty write that arrives when exactly `max` bytes were written. */
  ghost predicate EmptyWriteWhenFull(max: int, writes: seq<Bytes>) {
    exists i :: 0 <= i < |writes| && writes[i] == [] && |Concat(writes[..i])| == max
  }

  function FirstBytes(max: int, s: Bytes): Bytes {
    if 0 <= max < |s| then s[..max] else s
  }

  /** However the output is chunked, the buffer holds the first `max` bytes of it; overflow is flagged exactly when
  the output is longer, or when an empty write follows `max` bytes. A cap of zero or less means no cap. */
  lemma {:induction false} BufferMeaning(max: int, writes: seq<Bytes>)
    ensures max > 0 ==> PutAll(max, writes).buf == FirstBytes(max, Concat(writes))
    ensures max > 0 ==> (PutAll(max, writes).overflow <==> |Concat(writes)| > max || EmptyWriteWhenFull(max, writes))
    ensures max > 0 && PutAll(max, writes).overflow ==> |Concat(writes)| >= max
    ensures max <= 0 ==> PutAll(max, writes) == Buffer(Concat(writes), false)
    decreases |writes|
  {
    if writes != [] {
      var n := |writes| - 1;
      var init, p := writes[..n], writes[n];
      BufferMeaning(max, init);
      FirstBytesOfSum(max, Concat(init), p);
      EmptyWriteSnoc(max, writes);
    }
  }

  lemma FirstBytesOfSum(max: int, s: Bytes, p: Bytes)
    ensures max > 0 && |s| >= max ==> FirstBytes(max, s + p) == FirstBytes(max, s)
    ensures |s| < max && |s| + |p| > max ==> FirstBytes(max, s + p) == s + p[..max - |s|]
  {
  }

  lemma EmptyWriteSnoc(max: int, writes: seq<Bytes>)
    requires writes != []
    ensures var n := |writes| - 1;
            EmptyWriteWhenFull(max, writes) <==>
            EmptyWriteWhenFull(max, writes[..n]) || (writes[n] == [] && |Concat(writes[..n])| == max)
  {
    var n := |writes| - 1;
    var init := writes[..n];
    forall i | 0 <= i < n
      ensures init[..i] == writes[..i] && init[i] == writes[i]
    {
    }
    if i :| 0 <= i < |init| && init[i] == [] && |Concat(init[..i])| == max {
      assert writes[i] == [] && |Concat(writes[..i])| == max;
    }
  }

  /** Without empty writes, overflow means exactly that the output is longer than the cap. */
  lemma NonEmptyWritesAreExact(max: int, writes: seq<Bytes>)
    requires max > 0 && forall i :: 0 <= i < |writes| ==> writes[i] != []
    ensures PutAll(max, writes) == Buffer(FirstBytes(max, Concat(writes)), |Concat(writes)| > max)
  {
    BufferMeaning(max, writes);
  }

  /** The exception: output of exactly `max` bytes, flagged because an empty write follows it. */
  lemma EmptyWriteOverflows(p: Bytes)
    requires p != []
    ensures PutAll(|p|, [p, []]).overflow && |Concat([p, []])| == |p|
  {
    assert [p, []][..1] == [p] && [p][..0] == [];
    assert PutAll(|p|, [p]) == Put(|p|, PutAll(|p|, []), p);
    assert PutAll(|p|, [p, []]) == Put(|p|, PutAll(|p|, [p]), []);
    assert Concat([p]) == Concat([]) + p && Concat([p, []]) == Concat([p]) + [];
  }

  class CappedBuffer {
    var buf: Bytes
    const max: int
    var overflow: bool

    ghost function State(): Buffer
      reads this
    {
      Buffer(buf, overflow)
    }

    constructor (max: int)
      ensures State() == Buffer([], false) && this.max == max
    {
      buf, this.max, overflow := [], max, false;
    }

    /** Every write reports full length, so the module never sees a short write. */
    method Write(p: Bytes) returns (n: nat)
      modifies this
      ensures State() == Put(max, old(State()), p) && n == |p|
    {
      n := |p|;
      if max <= 0 {
        buf := buf + p;
        return;
      }
      if overflow {
        return;
      }
      var remaining := max - |buf|;
      if remaining <= 0 {
        overflow := true;
        return;
      }
      if |p| > remaining {
        buf := buf + p[..remaining];
        overflow := true;
        return;
      }
      buf := buf + p;
    }
  }

  // ---------------------------------------------------------------------------
  // The two ABIs
  // ---------------------------------------------------------------------------

  /** How instantiating a command module ends. */
  datatype Exit = Clean | ExitCode(code: nat) | Trap

  /** stdout is returned whole or not at all, and never exceeds the limit. */
  method RunWASIModule(maxOutputBytes: nat, writes: seq<Bytes>, exit: Exit) returns (output: Option<Bytes>)
    requires maxOutputBytes > 0
    ensures output.Some? <==> (exit == Clean || exit == ExitCode(0)) && |Concat(writes)| <= maxOutputBytes
                              && !EmptyWriteWhenFull(maxOutputBytes, writes)
    ensures output.Some? ==> output.value == Concat(writes) && |output.value| <= maxOutputBytes
  {
    var stdout := new CappedBuffer(maxOutputBytes);
    for i := 0 to |writes|
      invariant stdout.State() == PutAll(maxOutputBytes, writes[..i])
    {
      assert writes[..i + 1][..i] == writes[..i];
      var n := stdout.Write(writes[i]);
    }
    assert writes[..|writes|] == writes;
    BufferMeaning(maxOutputBytes, writes);
    if exit == Trap || (exit.ExitCode? && exit.code != 0) {
      return None;
    }
    if stdout.overflow {
      return None;
    }
    return Some(stdout.buf);
  }

  const WORD: nat := 0x1_0000_0000

  /** The output that a packed result points at: pointer in the high 32 bits, length in the low 32. */
  function UnpackOutput(maxOutputBytes: nat, memory: Bytes, packed: nat): (output: Option<Bytes>)
    requires packed < WORD * WORD
    ensures output.Some? <==> packed % WORD <= maxOutputBytes && packed / WORD + packed % WORD <= |memory|
    ensures output.Some? ==>
              && |output.value| == packed % WORD <= maxOutputBytes
              && forall i :: 0 <= i < |output.value| ==> output.value[i] == memory[packed / WORD + i]
  {
    var ptr, len := packed / WORD, packed % WORD;
    if len > maxOutputBytes || ptr + len > |memory| then None else Some(memory[ptr..ptr + len])
  }

  /** Packing a pointer and a length and unpacking them reads exactly that region, when it is in bounds and within the
  limit. */
  lemma PackThenUnpack(maxOutputBytes: nat, memory: Bytes, ptr: nat, len: nat)
    requires ptr < WORD && len < WORD
    ensures WORD == 0x1_0000_0000 && ptr * 0x1_0000_0000 + len < WORD * WORD
    ensures UnpackOutput(maxOutputBytes, memory, ptr * 0x1_0000_0000 + len) ==
            if len <= maxOutputBytes && ptr + len <= |memory| then Some(memory[ptr..ptr + len]) else None
  {
    assert (ptr * WORD + len) / WORD == ptr && (ptr * WORD + len) % WORD == len;
  }
}
