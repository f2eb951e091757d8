/**
 The parts of the graphics backend the upload code talks to, as values: command buffers and the
 commands recorded into them, command pools, and a log of what the device is asked to do with mapped
 memory. The backend's own implementation is not modelled; each call becomes an effect on this state.
 */
module Hal {
  newtype byte = x: int | 0 <= x < 256

  datatype QueueFamilyId = QueueFamilyId(index: nat)

  /** Where a command buffer is in its backend lifecycle: reset, being recorded, or finished. */
  datatype Status = Initial | Recording | Executable

  datatype ImageLayout =
    | General | ColorAttachmentOptimal | DepthStencilAttachmentOptimal | DepthStencilReadOnlyOptimal
    | ShaderReadOnlyOptimal | TransferSrcOptimal | TransferDstOptimal | Undefined | Preinitialized | Present

  datatype SubresourceLayers = SubresourceLayers(aspects: nat, level: nat, layerStart: nat, layerEnd: nat)

  datatype Offset = Offset(x: int, y: int, z: int)

  datatype Extent = Extent(width: nat, height: nat, depth: nat)

  /** Region of a buffer-to-buffer copy. */
  datatype BufferCopy = BufferCopy(src: nat, dst: nat, size: nat)

  /** Region of a buffer-to-image copy; zero width and height mean tightly packed rows. */
  datatype BufferImageCopy = BufferImageCopy(
    bufferOffset: nat, bufferWidth: nat, bufferHeight: nat,
    imageLayers: SubresourceLayers, imageOffset: Offset, imageExtent: Extent)

  /** A command recorded into a command buffer; buffers and images are named by their handles. */
  datatype Command =
    | UpdateBuffer(dst: nat, offset: nat, data: seq<byte>)
    | CopyBuffer(src: nat, dst: nat, region: BufferCopy)
    | CopyBufferToImage(src: nat, dst: nat, layout: ImageLayout, imageRegion: BufferImageCopy)

  /** A command buffer: its identity, its lifecycle status and the commands recorded so far. */
  datatype CommandBuffer = CommandBuffer(id: nat, status: Status, commands: seq<Command>)
  {
    function Begin(): CommandBuffer { this.(status := Recording) }

    function Record(command: Command): CommandBuffer { this.(commands := commands + [command]) }

    function Finish(): CommandBuffer { this.(status := Executable) }

    /** `reset(true)`: recorded commands are discarded. */
    function Reset(): CommandBuffer { this.(status := Initial, commands := []) }
  }

  /** A command pool, reduced to the family it serves and how many buffers it has handed out. */
  datatype CommandPool = CommandPool(family: QueueFamilyId, handedOut: nat)
  {
    /** The buffer the next `allocate(1, Primary)` hands out. */
    function Next(): CommandBuffer { CommandBuffer(handedOut, Initial, []) }

    function AfterAllocate(): CommandPool { this.(handedOut := handedOut + 1) }
  }

  function Ids(buffers: seq<CommandBuffer>): seq<nat> {
    seq(|buffers|, i requires 0 <= i < |buffers| => buffers[i].id)
  }

  function ResetAll(buffers: seq<CommandBuffer>): seq<CommandBuffer> {
    seq(|buffers|, i requires 0 <= i < |buffers| => buffers[i].Reset())
  }

  lemma IdsOfResetAll(buffers: seq<CommandBuffer>)
    ensures Ids(ResetAll(buffers)) == Ids(buffers)
  {
  }

  lemma IdsAppend(a: seq<CommandBuffer>, b: seq<CommandBuffer>)
    ensures Ids(a + b) == Ids(a) + Ids(b)
  {
  }

  lemma ResetAllAppend(a: seq<CommandBuffer>, b: seq<CommandBuffer>)
    ensures ResetAll(a + b) == ResetAll(a) + ResetAll(b)
  {
  }

  /** What one step on mapped memory does: map, invalidate, the host write itself, flush. */
  datatype EffectKind = MapRange | Invalidate | HostWrite | Flush

  datatype MemoryEffect = MemoryEffect(kind: EffectKind, memory: array<byte>, start: nat, end: nat)

  /** The device, reduced to the ordered log of the memory effects asked of it. */
  class Device {
    var effects: seq<MemoryEffect>

    constructor ()
      ensures effects == []
    {
      effects := [];
    }

    method MapMemory(memory: array<byte>, start: nat, end: nat)
      modifies this
      ensures effects == old(effects) + [MemoryEffect(MapRange, memory, start, end)]
    {
      effects := effects + [MemoryEffect(MapRange, memory, start, end)];
    }

    method InvalidateMappedMemoryRange(memory: array<byte>, start: nat, end: nat)
      modifies this
      ensures effects == old(effects) + [MemoryEffect(Invalidate, memory, start, end)]
    {
      effects := effects + [MemoryEffect(Invalidate, memory, start, end)];
    }

    method FlushMappedMemoryRange(memory: array<byte>, start: nat, end: nat)
      modifies this
      ensures effects == old(effects) + [MemoryEffect(Flush, memory, start, end)]
    {
      effects := effects + [MemoryEffect(Flush, memory, start, end)];
    }
  }
}
