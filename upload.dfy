/**
 The upload context: a staging threshold, a queue family, a lazily created command pool, the
 command buffer being recorded, a stack of free buffers and a queue of in-flight buffers tagged
 with frames. Buffer uploads are routed to a direct write, an inline update command or a staging
 copy; image uploads always go through a staging copy.
 */
module Upload {
  import opened Wrappers
  import opened Hal
  import opened Mem
  import opened RawMemory
  import opened InFlightQueue

  /** The two recoverable failures of an upload: a range outside the target, a failed staging allocation. */
  datatype Error = OutOfBounds | StagingAllocationFailed(cause: AllocError)

  /** Offsets, sizes and lengths are 64-bit unsigned integers in the source. */
  const U64_MODULUS: nat := 0x1_0000_0000_0000_0000

  /**
   The bounds test of `upload_buffer` as written, in a build without overflow checks: the end of the
   range, `offset + len`, is computed modulo 2^64 before it is compared with the buffer size. When
   the sum does not wrap it is the intended test.
   */
  function WrappingOutOfBounds(size: nat, offset: nat, len: nat): (out: bool)
    requires size < U64_MODULUS && offset < U64_MODULUS && len < U64_MODULUS
    ensures offset + len < U64_MODULUS ==> (out <==> size < offset + len)
  {
    size < (offset + len) % U64_MODULUS
  }

  /**
   Whenever the end of the range wraps around to at most the size, the wrapping test lets a range
   through that ends past the buffer.
   */
  lemma WrappedRangePassesCheck(size: nat, offset: nat, len: nat)
    requires size < U64_MODULUS && offset < U64_MODULUS && len < U64_MODULUS
    requires U64_MODULUS <= offset + len && offset + len - U64_MODULUS <= size
    ensures !WrappingOutOfBounds(size, offset, len) && size < offset + len
  {
  }

  /** One such input: one byte at the last 64-bit offset of an empty buffer is accepted. */
  lemma LastOffsetOfEmptyBufferAccepted()
    ensures !WrappingOutOfBounds(0, U64_MODULUS - 1, 1)
    ensures 0 < (U64_MODULUS - 1) + 1
  {
  }

  /** `offset + len` as a 64-bit checked addition: nothing when the sum does not fit. */
  function CheckedAdd(offset: nat, len: nat): (r: Option<nat>)
    ensures r.Some? ==> r.value < U64_MODULUS
  {
    if offset + len < U64_MODULUS then Some(offset + len) else None
  }

  /**
   The evidently intended bounds test with a checked addition, a range whose end does not fit in 64
   bits being out of bounds: it refuses exactly the ranges that end past the buffer.
   */
  function CheckedOutOfBounds(size: nat, offset: nat, len: nat): (out: bool)
    requires size < U64_MODULUS
    ensures out <==> size < offset + len
  {
    match CheckedAdd(offset, len)
    case None => true
    case Some(end) => size < end
  }

  /** The lifecycle state of an upload context: pool, current buffer, free stack, in-flight queue. */
  datatype Lifecycle = Lifecycle(
    pool: Option<CommandPool>, cbuf: Option<CommandBuffer>, free: seq<CommandBuffer>, used: seq<InFlight>)

  /** How many command buffers have ever been allocated; their ids are `0 .. Allocated(s) - 1`. */
  function Allocated(s: Lifecycle): nat {
    if s.pool.Some? then s.pool.value.handedOut else 0
  }

  function CurrentIds(s: Lifecycle): seq<nat> {
    if s.cbuf.Some? then [s.cbuf.value.id] else []
  }

  /** The ids of every buffer the context holds, counted with multiplicity: current, free and in flight. */
  function OwnedIds(s: Lifecycle): multiset<nat> {
    multiset(CurrentIds(s)) + multiset(Ids(s.free)) + multiset(Ids(Buffers(s.used)))
  }

  ghost function IdRange(n: nat): multiset<nat> {
    if n == 0 then multiset{} else IdRange(n - 1) + multiset{n - 1}
  }

  /**
   The invariant of an upload context: every allocated buffer is held exactly once, the current
   buffer is recording, free buffers are reset and empty, in-flight buffers are finished.
   */
  ghost predicate Consistent(family: QueueFamilyId, s: Lifecycle) {
    && (s.pool.Some? ==> s.pool.value.family == family)
    && OwnedIds(s) == IdRange(Allocated(s))
    && (s.cbuf.Some? ==> s.cbuf.value.status == Recording)
    && (forall i :: 0 <= i < |s.free| ==> s.free[i].status == Initial && s.free[i].commands == [])
    && (forall i :: 0 <= i < |s.used| ==> s.used[i].buffer.status == Executable)
  }

  lemma {:induction false} IdRangeCount(n: nat, id: nat)
    ensures IdRange(n)[id] == if id < n then 1 else 0
  {
    if n > 0 {
      IdRangeCount(n - 1, id);
    }
  }

  /**
   In a consistent context each allocated buffer is in exactly one of current, free and in flight,
   and only once there; no other id is held.
   */
  lemma EachBufferInExactlyOnePlace(family: QueueFamilyId, s: Lifecycle)
    requires Consistent(family, s)
    ensures forall id: nat :: id < Allocated(s) ==>
      multiset(CurrentIds(s))[id] + multiset(Ids(s.free))[id] + multiset(Ids(Buffers(s.used)))[id] == 1
    ensures forall id: nat :: id >= Allocated(s) ==> id !in OwnedIds(s)
  {
    forall id: nat | id < Allocated(s)
      ensures multiset(CurrentIds(s))[id] + multiset(Ids(s.free))[id] + multiset(Ids(Buffers(s.used)))[id] == 1
    {
      IdRangeCount(Allocated(s), id);
    }
    forall id: nat | id >= Allocated(s)
      ensures id !in OwnedIds(s)
    {
      IdRangeCount(Allocated(s), id);
    }
  }

  /** The commands recorded since the last `uploads`. */
  function Pending(s: Lifecycle): seq<Command> {
    if s.cbuf.Some? then s.cbuf.value.commands else []
  }

  /** The pool, created for `family` if there is none yet. */
  function PoolOrNew(family: QueueFamilyId, pool: Option<CommandPool>): CommandPool {
    if pool.Some? then pool.value else CommandPool(family, 0)
  }

  /**
   The buffer choice of `get_command_buffer`, from state `s` to state `t`: keep the current buffer;
   else take the last free buffer; else allocate a new one from the pool, creating the pool only if
   there is none. The in-flight queue is untouched.
   */
  predicate Acquires(family: QueueFamilyId, s: Lifecycle, t: Lifecycle) {
    && t.cbuf.Some?
    && t.used == s.used
    && if s.cbuf.Some? then
         t.cbuf.value.id == s.cbuf.value.id && t.free == s.free && t.pool == s.pool
       else if s.free != [] then
         t.cbuf.value.id == s.free[|s.free| - 1].id && t.free == s.free[..|s.free| - 1] && t.pool == s.pool
       else
         var p := PoolOrNew(family, s.pool);
         t.cbuf.value.id == p.handedOut && t.free == [] && t.pool == Some(p.AfterAllocate())
  }

  /** Acquiring a buffer as `get_command_buffer` does and recording exactly `command` on top of what it held. */
  predicate Records(family: QueueFamilyId, s: Lifecycle, t: Lifecycle, command: Command) {
    Acquires(family, s, t) && t.cbuf.value.status == Recording && t.cbuf.value.commands == Pending(s) + [command]
  }

  /**
   The pool is created at most once: an existing pool is kept (it may hand out one more buffer), and
   a pool appears only when there was no current buffer and nothing free, as a fresh pool of
   `family` that has handed out exactly the one buffer now current.
   */
  lemma PoolCreatedOnlyOnFirstNeed(family: QueueFamilyId, s: Lifecycle, t: Lifecycle)
    requires Acquires(family, s, t)
    ensures s.pool.Some? ==>
      && t.pool.Some? && t.pool.value.family == s.pool.value.family
      && s.pool.value.handedOut <= t.pool.value.handedOut <= s.pool.value.handedOut + 1
    ensures s.pool.None? && t.pool.Some? ==>
      s.cbuf.None? && s.free == [] && t.pool.value == CommandPool(family, 1) && t.cbuf.value.id == 0
    ensures s.cbuf.Some? || s.free != [] ==> t.pool == s.pool
  {
  }

  /** Acquiring a buffer keeps a context consistent, provided the acquired buffer is recording. */
  lemma AcquirePreservesConsistent(family: QueueFamilyId, s: Lifecycle, t: Lifecycle)
    requires Consistent(family, s)
    requires Acquires(family, s, t) && t.cbuf.value.status == Recording
    ensures Consistent(family, t)
  {
    if s.cbuf.Some? {
      assert OwnedIds(t) == OwnedIds(s);
    } else if s.free != [] {
      PopFreeKeepsIds(s, t);
      forall i | 0 <= i < |t.free|
        ensures t.free[i].status == Initial && t.free[i].commands == []
      {
        assert t.free[i] == s.free[i];
      }
    } else {
      AllocateAddsNextId(family, s, t);
    }
  }

  lemma PopFreeKeepsIds(s: Lifecycle, t: Lifecycle)
    requires s.cbuf.None? && s.free != [] && t.cbuf.Some? && t.used == s.used
    requires t.cbuf.value.id == s.free[|s.free| - 1].id && t.free == s.free[..|s.free| - 1]
    ensures OwnedIds(t) == OwnedIds(s)
  {
    var last := s.free[|s.free| - 1];
    assert s.free == t.free + [last];
    IdsAppend(t.free, [last]);
    assert multiset(Ids(s.free)) == multiset(Ids(t.free)) + multiset{last.id};
    assert multiset(CurrentIds(t)) == multiset{last.id};
  }

  lemma AllocateAddsNextId(family: QueueFamilyId, s: Lifecycle, t: Lifecycle)
    requires Consistent(family, s)
    requires s.cbuf.None? && s.free == [] && t.cbuf.Some? && t.used == s.used && t.free == []
    requires t.cbuf.value.id == PoolOrNew(family, s.pool).handedOut
    requires t.pool == Some(PoolOrNew(family, s.pool).AfterAllocate())
    ensures OwnedIds(t) == IdRange(Allocated(t))
  {
    var n := PoolOrNew(family, s.pool).handedOut;
    assert Allocated(s) == n;
    assert Allocated(t) == n + 1;
    assert multiset(CurrentIds(t)) == multiset{n};
    assert OwnedIds(t) == OwnedIds(s) + multiset{n};
  }

  /** Finishing the current buffer and queueing it in flight keeps a context consistent. */
  lemma FinishPreservesConsistent(family: QueueFamilyId, s: Lifecycle, frame: nat)
    requires Consistent(family, s) && s.cbuf.Some?
    ensures Consistent(family, Lifecycle(s.pool, None, s.free, s.used + [InFlight(s.cbuf.value.Finish(), frame)]))
  {
    var b := s.cbuf.value.Finish();
    var used := s.used + [InFlight(b, frame)];
    assert Buffers(used) == Buffers(s.used) + [b];
    IdsAppend(Buffers(s.used), [b]);
    forall i | 0 <= i < |used|
      ensures used[i].buffer.status == Executable
    {
      if i < |s.used| {
        assert used[i] == s.used[i];
      }
    }
  }

  /** Recycling what `Drain` releases onto the free stack keeps a context consistent. */
  lemma ClearPreservesConsistent(family: QueueFamilyId, s: Lifecycle, ongoing: nat)
    requires Consistent(family, s)
    ensures var d := Drain(s.used, ongoing);
      Consistent(family, Lifecycle(s.pool, s.cbuf, s.free + ResetAll(d.recycled), d.retained))
  {
    ClearKeepsIds(s, ongoing);
    RecycledAreReset(s.free, Drain(s.used, ongoing).recycled);
    RetainedAreFinished(s.used, ongoing);
  }

  lemma RecycledAreReset(free: seq<CommandBuffer>, recycled: seq<CommandBuffer>)
    requires forall i :: 0 <= i < |free| ==> free[i].status == Initial && free[i].commands == []
    ensures var all := free + ResetAll(recycled);
      forall i :: 0 <= i < |all| ==> all[i].status == Initial && all[i].commands == []
  {
  }

  lemma {:induction false} RetainedAreFinished(used: seq<InFlight>, ongoing: nat)
    requires forall i :: 0 <= i < |used| ==> used[i].buffer.status == Executable
    ensures var retained := Drain(used, ongoing).retained;
      forall i :: 0 <= i < |retained| ==> retained[i].buffer.status == Executable
  {
    var d := Drain(used, ongoing);
    DrainIsRetiredPrefix(used, ongoing);
    forall i | 0 <= i < |d.retained|
      ensures d.retained[i].buffer.status == Executable
    {
      assert d.retained[i].buffer == used[|d.recycled| + i].buffer;
    }
  }

  lemma ClearKeepsIds(s: Lifecycle, ongoing: nat)
    ensures var d := Drain(s.used, ongoing);
      OwnedIds(Lifecycle(s.pool, s.cbuf, s.free + ResetAll(d.recycled), d.retained)) == OwnedIds(s)
  {
    var d := Drain(s.used, ongoing);
    var recycled, kept := Ids(d.recycled), Ids(Buffers(d.retained));
    DrainConservesBuffers(s.used, ongoing);
    IdsAppend(d.recycled, Buffers(d.retained));
    assert multiset(Ids(Buffers(s.used))) == multiset(recycled) + multiset(kept);
    IdsAppend(s.free, ResetAll(d.recycled));
    IdsOfResetAll(d.recycled);
    assert multiset(Ids(s.free + ResetAll(d.recycled))) == multiset(Ids(s.free)) + multiset(recycled);
  }

  /** The staging buffer `s` now holds `data` at its start, written through one mapping of its range. */
  twostate predicate StagingWritten(device: Device, s: Buffer, data: seq<byte>)
    reads device, s.block.memory
  {
    && s.block.start + |data| <= s.block.memory.Length
    && s.block.memory[..] == Overwrite(old(s.block.memory[..]), s.block.start, data)
    && device.effects
       == old(device.effects) + WriteEffects(s.block.properties.coherent, s.block.memory, s.block.start, s.block.start + |data|)
  }

  /**
   The staging step shared by the device-local and image paths: ask the allocator for a short-lived
   CPU-visible buffer of `|data|` bytes and, if it hands one out, write `data` to its start.
   */
  method CreateStaging(device: Device, allocator: Allocator, data: seq<byte>, created: Result<Buffer, AllocError>)
    returns (staging: Result<Buffer, AllocError>)
    requires StagingFits(created, |data|)
    modifies device, allocator, StagingMemory(created)
    ensures staging == created
    ensures allocator.requests == old(allocator.requests) + [StagingRequest(|data|)]
    ensures created.Failure? ==> unchanged(device)
    ensures created.Success? ==> StagingWritten(device, created.value, data)
  {
    staging := allocator.CreateBuffer(StagingRequest(|data|), created);
    if staging.Success? {
      var s := staging.value;
      UpdateCpuVisibleBlock(device, s.block.properties.coherent, s.block, 0, data);
    }
  }

  class Upload {
    const stagingThreshold: nat
    const family: QueueFamilyId
    var pool: Option<CommandPool>
    var cbuf: Option<CommandBuffer>
    var free: seq<CommandBuffer>
    var used: seq<InFlight>

    function State(): Lifecycle
      reads this
    {
      Lifecycle(pool, cbuf, free, used)
    }

    ghost predicate Valid()
      reads this
    {
      Consistent(family, State())
    }

    /** `new`: no pool, no current buffer, nothing free, nothing in flight. */
    constructor (stagingThreshold: nat, family: QueueFamilyId)
      ensures Valid()
      ensures this.stagingThreshold == stagingThreshold && this.family == family
      ensures State() == Lifecycle(None, None, [], [])
    {
      this.stagingThreshold := stagingThreshold;
      this.family := family;
      pool := None;
      cbuf := None;
      free := [];
      used := [];
    }

    /**
     `get_command_buffer`: the current buffer if there is one; otherwise the last free buffer or a
     new one from the pool (created on first need), begun and made current.
     */
    method GetCommandBuffer()
      requires Valid()
      modifies this
      ensures Valid()
      ensures Acquires(family, old(State()), State())
      ensures cbuf.value.status == Recording && cbuf.value.commands == Pending(old(State()))
      ensures old(cbuf).Some? ==> cbuf == old(cbuf)
    {
      ghost var before := State();
      if cbuf.None? {
        var b: CommandBuffer;
        if |free| > 0 {
          b := free[|free| - 1];
          free := free[..|free| - 1];
        } else {
          if pool.None? {
            pool := Some(CommandPool(family, 0));
          }
          var p := pool.value;
          b := p.Next();
          pool := Some(p.AfterAllocate());
        }
        cbuf := Some(b.Begin());
      }
      AcquirePreservesConsistent(family, before, State());
    }

    /** `get_command_buffer()` followed by recording `command` into the buffer it returns. */
    method Record(command: Command)
      requires Valid()
      modifies this
      ensures Valid()
      ensures Records(family, old(State()), State(), command)
    {
      ghost var before := State();
      GetCommandBuffer();
      cbuf := Some(cbuf.value.Record(command));
      AcquirePreservesConsistent(family, before, State());
    }

    /** What `upload_device_local_buffer` does, for bytes `data` bound for offset `offset` of `target`. */
    twostate predicate DeviceLocalUploaded(
      device: Device, allocator: Allocator, target: Buffer, offset: nat, data: seq<byte>,
      created: Result<Buffer, AllocError>, new r: Result<Option<Buffer>, Error>)
      reads this, device, allocator, StagingMemory(created)
    {
      if |data| <= stagingThreshold then
        && r == Success(None)
        && Records(family, old(State()), State(), UpdateBuffer(target.handle, offset, data))
        && unchanged(device, allocator)
        && unchanged(StagingMemory(created))
      else
        && allocator.requests == old(allocator.requests) + [StagingRequest(|data|)]
        && (created.Failure? ==>
              r == Failure(StagingAllocationFailed(created.error)) && unchanged(this, device))
        && (created.Success? ==>
              && r == Success(Some(created.value))
              && StagingWritten(device, created.value, data)
              && Records(family, old(State()), State(),
                         CopyBuffer(created.value.handle, target.handle, BufferCopy(0, offset, |data|))))
    }

    /**
     `upload_device_local_buffer`: up to the staging threshold the bytes travel inline in an update
     command; above it they are written to a staging buffer that one copy command moves to the
     target, and the staging buffer is handed to the caller.
     */
    method UploadDeviceLocalBuffer(
      device: Device, allocator: Allocator, target: Buffer, offset: nat, data: seq<byte>,
      created: Result<Buffer, AllocError>)
      returns (r: Result<Option<Buffer>, Error>)
      requires Valid()
      requires StagingFits(created, |data|)
      modifies this, device, allocator, StagingMemory(created)
      ensures Valid()
      ensures DeviceLocalUploaded(device, allocator, target, offset, data, created, r)
    {
      if |data| <= stagingThreshold {
        Record(UpdateBuffer(target.handle, offset, data));
        r := Success(None);
      } else {
        var staging := CreateStaging(device, allocator, data, created);
        if staging.Failure? {
          return Failure(StagingAllocationFailed(staging.error));
        }
        var s := staging.value;
        Record(CopyBuffer(s.handle, target.handle, BufferCopy(0, offset, |data|)));
        r := Success(Some(s));
      }
    }

    /**
     `upload_buffer`: a range past the end of the target is refused with nothing changed; a
     CPU-visible target is written directly and nothing is recorded; any other target takes the
     device-local path.
     */
    method UploadBuffer(
      device: Device, allocator: Allocator, target: Buffer, offset: nat, data: seq<byte>,
      created: Result<Buffer, AllocError>)
      returns (r: Result<Option<Buffer>, Error>)
      requires Valid()
      requires WellFormed(target)
      requires StagingFits(created, |data|)
      requires !target.block.properties.cpuVisible && created.Success? ==>
        created.value.block.memory != target.block.memory
      modifies this, device, allocator, target.block.memory, StagingMemory(created)
      ensures Valid()
      ensures target.size < offset + |data| ==>
        && r == Failure(OutOfBounds)
        && unchanged(this, device, allocator, target.block.memory)
        && unchanged(StagingMemory(created))
      ensures offset + |data| <= target.size && target.block.properties.cpuVisible ==>
        && r == Success(None)
        && unchanged(this, allocator)
        && unchanged(StagingMemory(created) - {target.block.memory})
        && target.block.memory[..] == Overwrite(old(target.block.memory[..]), target.block.start + offset, data)
        && device.effects == old(device.effects)
           + WriteEffects(target.block.properties.coherent, target.block.memory,
                          target.block.start + offset, target.block.start + offset + |data|)
      ensures offset + |data| <= target.size && !target.block.properties.cpuVisible ==>
        && unchanged(target.block.memory)
        && DeviceLocalUploaded(device, allocator, target, offset, data, created, r)
    {
      if target.size < offset + |data| {
        return Failure(OutOfBounds);
      }
      var properties := target.block.properties;
      if properties.cpuVisible {
        UpdateCpuVisibleBlock(device, properties.coherent, target.block, offset, data);
        r := Success(None);
      } else {
        r := UploadDeviceLocalBuffer(device, allocator, target, offset, data, created);
      }
    }

    /**
     `upload_image`: whatever the size, the bytes go to a staging buffer and one buffer-to-image copy
     from its start, tightly packed, into the given layers, offset and extent of the image; the
     staging buffer is handed to the caller.
     */
    method UploadImage(
      device: Device, allocator: Allocator, image: Image, data: seq<byte>, layout: ImageLayout,
      layers: SubresourceLayers, offset: Offset, extent: Extent, created: Result<Buffer, AllocError>)
      returns (r: Result<Buffer, Error>)
      requires Valid()
      requires StagingFits(created, |data|)
      modifies this, device, allocator, StagingMemory(created)
      ensures Valid()
      ensures allocator.requests == old(allocator.requests) + [StagingRequest(|data|)]
      ensures created.Failure? ==>
        r == Failure(StagingAllocationFailed(created.error)) && unchanged(this, device)
      ensures created.Success? ==>
        && r == Success(created.value)
        && StagingWritten(device, created.value, data)
        && Records(family, old(State()), State(),
                   CopyBufferToImage(created.value.handle, image.handle, layout,
                                     BufferImageCopy(0, 0, 0, layers, offset, extent)))
    {
      var staging := CreateStaging(device, allocator, data, created);
      if staging.Failure? {
        return Failure(StagingAllocationFailed(staging.error));
      }
      var s := staging.value;
      Record(CopyBufferToImage(s.handle, image.handle, layout, BufferImageCopy(0, 0, 0, layers, offset, extent)));
      r := Success(s);
    }

    /**
     `uploads(frame)`: the current buffer, if any, is finished, queued in flight tagged with `frame`
     and returned with the queue family; with no current buffer nothing changes and nothing is
     returned. Either way no buffer is current afterwards.
     */
    method Uploads(frame: nat) returns (r: Option<(CommandBuffer, QueueFamilyId)>)
      requires Valid()
      modifies this
      ensures Valid()
      ensures cbuf.None? && pool == old(pool) && free == old(free)
      ensures old(cbuf).None? ==> r.None? && used == old(used)
      ensures old(cbuf).Some? ==>
        && r == Some((old(cbuf).value.Finish(), family))
        && used == old(used) + [InFlight(old(cbuf).value.Finish(), frame)]
      ensures Ordered(old(used)) && (forall i :: 0 <= i < |old(used)| ==> old(used)[i].frame <= frame) ==>
        Ordered(used)
    {
      if cbuf.Some? {
        var b := cbuf.value.Finish();
        FinishPreservesConsistent(family, State(), frame);
        cbuf := None;
        used := used + [InFlight(b, frame)];
        r := Some((b, family));
      } else {
        r := None;
      }
    }

    /**
     `clear(ongoing)`: drains the in-flight queue from the front as `Drain` describes, resetting
     each recycled buffer and pushing it onto the free stack in queue order.
     */
    method Clear(ongoing: nat)
      requires Valid()
      modifies this
      ensures Valid()
      ensures used == Drain(old(used), ongoing).retained
      ensures free == old(free) + ResetAll(Drain(old(used), ongoing).recycled)
      ensures cbuf == old(cbuf) && pool == old(pool)
      ensures Ordered(old(used)) ==> Ordered(used)
    {
      ghost var recycled: seq<CommandBuffer> := [];
      while |used| > 0
        invariant Drain(old(used), ongoing).recycled == recycled + Drain(used, ongoing).recycled
        invariant Drain(old(used), ongoing).retained == Drain(used, ongoing).retained
        invariant free == old(free) + ResetAll(recycled)
        invariant cbuf == old(cbuf) && pool == old(pool)
        decreases |used|
      {
        ghost var later := Drain(used[1..], ongoing);
        var entry := used[0];
        used := used[1..];
        if entry.frame >= ongoing {
          used := [InFlight(entry.buffer, ongoing)] + used;
          break;
        }
        assert (recycled + [entry.buffer]) + later.recycled == recycled + ([entry.buffer] + later.recycled);
        ResetAllAppend(recycled, [entry.buffer]);
        free := free + [entry.buffer.Reset()];
        recycled := recycled + [entry.buffer];
      }
      ghost var d := Drain(old(used), ongoing);
      assert State() == Lifecycle(old(pool), old(cbuf), old(free) + ResetAll(d.recycled), d.retained);
      ClearPreservesConsistent(family, old(State()), ongoing);
      if Ordered(old(used)) {
        DrainPreservesOrder(old(used), ongoing);
      }
    }
  }
}
