/**
 The memory allocator the upload code relies on, reduced to what it reads: a block's range within a
 device memory object and that memory's property set, a buffer bound to a block, and the requests
 made for staging buffers. How the allocator chooses memory is not modelled; the buffer it would
 hand out is an input of each upload.
 */
module Mem {
  import opened Wrappers
  import opened Hal

  /** The memory property flags the upload code tests. */
  datatype Properties = Properties(cpuVisible: bool, coherent: bool)

  /** A block: the range `[start, end)` of a device memory object with the given properties. */
  datatype Block = Block(memory: array<byte>, start: nat, end: nat, properties: Properties)

  /** A buffer bound to a block of memory. */
  datatype Buffer = Buffer(handle: nat, size: nat, block: Block)

  datatype Image = Image(handle: nat)

  /** The allocator's guarantee for a buffer it created: the block holds the whole buffer. */
  predicate WellFormed(b: Buffer) {
    b.block.start + b.size <= b.block.end <= b.block.memory.Length
  }

  datatype MemoryKind = ShortLived

  datatype BufferUsage = TransferSrc

  datatype BufferRequest = BufferRequest(kind: MemoryKind, properties: Properties, size: nat, usage: BufferUsage)

  /** The request `create_buffer` receives for a staging buffer of `size` bytes. */
  function StagingRequest(size: nat): BufferRequest {
    BufferRequest(ShortLived, Properties(cpuVisible := true, coherent := false), size, TransferSrc)
  }

  datatype AllocError = AllocError(code: nat)

  /** What the allocator promises of a staging buffer it hands out for `size` bytes. */
  predicate StagingFits(created: Result<Buffer, AllocError>, size: nat) {
    created.Success? ==>
      WellFormed(created.value) && created.value.size == size && created.value.block.properties.cpuVisible
  }

  /** The memory a staging buffer handed out would be written through. */
  function StagingMemory(created: Result<Buffer, AllocError>): set<object> {
    if created.Success? then {created.value.block.memory} else {}
  }

  /** The allocator, reduced to the log of buffer requests it receives. */
  class Allocator {
    var requests: seq<BufferRequest>

    constructor ()
      ensures requests == []
    {
      requests := [];
    }

    /** `create_buffer`: the request is logged and `answer` is what the allocator returns. */
    method CreateBuffer(request: BufferRequest, answer: Result<Buffer, AllocError>)
      returns (r: Result<Buffer, AllocError>)
      modifies this
      ensures requests == old(requests) + [request]
      ensures r == answer
    {
      requests := requests + [request];
      r := answer;
    }
  }
}
