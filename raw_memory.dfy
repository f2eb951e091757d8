/**
 The raw memory writer `update_cpu_visible_block`: copy bytes into a CPU-visible block through a
 mapping, invalidating the mapped range before the write and flushing it after the write when the
 memory is not coherent.
 */
module RawMemory {
  import opened Hal
  import opened Mem

  /** `bytes` with `data` written over it starting at index `at`. */
  function Overwrite(bytes: seq<byte>, at: nat, data: seq<byte>): (r: seq<byte>)
    requires at + |data| <= |bytes|
    ensures |r| == |bytes|
    ensures forall k :: 0 <= k < |r| ==> r[k] == if at <= k < at + |data| then data[k - at] else bytes[k]
  {
    bytes[..at] + data + bytes[at + |data|..]
  }

  /** The memory effects of one write of the range `[start, end)` of `memory`, in the order issued. */
  function WriteEffects(coherent: bool, memory: array<byte>, start: nat, end: nat): seq<MemoryEffect> {
    [MemoryEffect(MapRange, memory, start, end)]
    + (if coherent then [] else [MemoryEffect(Invalidate, memory, start, end)])
    + [MemoryEffect(HostWrite, memory, start, end)]
    + (if coherent then [] else [MemoryEffect(Flush, memory, start, end)])
  }

  predicate Issued(effects: seq<MemoryEffect>, kind: EffectKind) {
    exists i :: 0 <= i < |effects| && effects[i].kind == kind
  }

  /** Every effect of kind `first` comes before every effect of kind `second`. */
  predicate Precedes(effects: seq<MemoryEffect>, first: EffectKind, second: EffectKind) {
    forall i, j :: 0 <= i < |effects| && 0 <= j < |effects| && effects[i].kind == first && effects[j].kind == second ==> i < j
  }

  /** Effect `kind` is issued exactly once. */
  predicate IssuedOnce(effects: seq<MemoryEffect>, kind: EffectKind) {
    Issued(effects, kind) &&
    forall i, j :: 0 <= i < |effects| && 0 <= j < |effects| && effects[i].kind == kind && effects[j].kind == kind ==> i == j
  }

  /**
   The mapping protocol of one write: every effect is on the same range; the range is mapped once
   and written once; invalidate and flush are issued, once each, exactly when the memory is not
   coherent; invalidate comes after the mapping and before the write, flush after the write.
   */
  lemma WriteProtocol(coherent: bool, memory: array<byte>, start: nat, end: nat)
    ensures var effects := WriteEffects(coherent, memory, start, end);
      && (forall i :: 0 <= i < |effects| ==>
            effects[i].memory == memory && effects[i].start == start && effects[i].end == end)
      && IssuedOnce(effects, MapRange) && IssuedOnce(effects, HostWrite)
      && (Issued(effects, Invalidate) <==> !coherent) && (Issued(effects, Flush) <==> !coherent)
      && (!coherent ==> IssuedOnce(effects, Invalidate) && IssuedOnce(effects, Flush))
      && Precedes(effects, MapRange, Invalidate) && Precedes(effects, MapRange, HostWrite)
      && Precedes(effects, Invalidate, HostWrite) && Precedes(effects, HostWrite, Flush)
  {
    var effects := WriteEffects(coherent, memory, start, end);
    if coherent {
      assert effects == [MemoryEffect(MapRange, memory, start, end), MemoryEffect(HostWrite, memory, start, end)];
      assert effects[0].kind == MapRange && effects[1].kind == HostWrite;
    } else {
      assert effects == [MemoryEffect(MapRange, memory, start, end), MemoryEffect(Invalidate, memory, start, end),
                         MemoryEffect(HostWrite, memory, start, end), MemoryEffect(Flush, memory, start, end)];
      assert effects[0].kind == MapRange && effects[1].kind == Invalidate;
      assert effects[2].kind == HostWrite && effects[3].kind == Flush;
    }
  }

  /**
   `update_cpu_visible_block`. The caller guarantees that the memory is CPU-visible, that `coherent`
   is set only for coherent memory, and that the written range lies within the block.
   */
  method UpdateCpuVisibleBlock(device: Device, coherent: bool, block: Block, offset: nat, data: seq<byte>)
    requires block.properties.cpuVisible
    requires coherent ==> block.properties.coherent
    requires block.start + offset + |data| <= block.end <= block.memory.Length
    modifies device, block.memory
    ensures block.memory[..] == Overwrite(old(block.memory[..]), block.start + offset, data)
    ensures device.effects
         == old(device.effects) + WriteEffects(coherent, block.memory, block.start + offset, block.start + offset + |data|)
  {
    var start := block.start + offset;
    var end := start + |data|;
    device.MapMemory(block.memory, start, end);
    if !coherent {
      device.InvalidateMappedMemoryRange(block.memory, start, end);
    }
    var i := 0;
    while i < |data|
      invariant 0 <= i <= |data|
      invariant forall k :: 0 <= k < block.memory.Length ==>
        block.memory[k] == if start <= k < start + i then data[k - start] else old(block.memory[k])
      modifies block.memory
    {
      block.memory[start + i] := data[i];
      i := i + 1;
    }
    device.effects := device.effects + [MemoryEffect(HostWrite, block.memory, start, end)];
    if !coherent {
      device.FlushMappedMemoryRange(block.memory, start, end);
    }
  }
}
