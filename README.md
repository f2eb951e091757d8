# Upload context of gfx-render, modelled in Dafny

This project models `src/upload.rs` of gfx-render: the `Upload` context that moves bytes from the
host into GPU buffers and images. The model has three parts.

- **Command-buffer lifecycle.** `Upload.Upload` is a class with the source's fields: the staging
  threshold, the queue family, a lazily created command pool, an optional current command buffer, a
  free stack and an in-flight queue of `(buffer, frame)` pairs.
  - Command buffers are values with an id, a status (`Initial`, `Recording`, `Executable`) and the
    log of commands recorded into them. They move between the three places as the source moves them.
  - The pool hands out ids `0, 1, 2, …`. The class invariant `Valid` says that every id handed out
    is held exactly once: as the current buffer, on the free stack, or in flight. It also says the
    current buffer is recording, free buffers are reset and empty, and in-flight buffers are finished.
  - `clear`'s drain of the queue is the function `InFlightQueue.Drain`. The loop in
    `Upload.Upload.Clear` is proved to compute it, and the properties of the drain are lemmas about
    that function.
- **Upload routing.** `UploadBuffer`, `UploadDeviceLocalBuffer` and `UploadImage` choose between
  three outcomes: a direct write into CPU-visible memory, an inline update command, or a staging
  buffer plus a copy command. Each recorded command is a `Hal.Command` value appended to the current
  buffer's log.
  - The allocator's answer to `create_buffer` is an input to each upload: a buffer, or an
    allocation error. `Mem.Allocator` logs every request it receives.
  - Memory properties belong to the block a buffer is bound to.
- **Raw memory writer.** `RawMemory.UpdateCpuVisibleBlock` copies the bytes into the block's device
  memory (an `array<byte>`) in a loop. `Hal.Device` keeps an ordered log of the effects asked of the
  device: map, invalidate, host write and flush. `RawMemory.WriteProtocol` states the order and
  multiplicity of those effects.

`Scenario` holds end-to-end runs with a threshold of 64 bytes, each proved from a fresh context:
- 32 bytes travel inline;
- 128 bytes at offset 100 of a 200-byte buffer are refused;
- 128 bytes are staged and copied;
- the second of two consecutive `uploads` calls returns nothing.

Frame order in the in-flight queue is not part of `Valid`. Callers are expected to pass
non-decreasing frames to `uploads`, and the code does not enforce it. So:
- `Uploads` preserves order when the new frame is at least every queued tag;
- `Clear` preserves it unconditionally.

## Model

| member | source | states |
|---|---|---|
| Upload.EachBufferInExactlyOnePlace | src/upload.rs:24-31 | in a consistent context every allocated buffer is held exactly once across current, free and in flight, and no other id is held |
| Upload.Upload.constructor | src/upload.rs:37-46 | a new context has the given threshold and family, no pool, no current buffer, nothing free or in flight, and is consistent |
| Upload.Upload.UploadBuffer | src/upload.rs:48-78 | a range ending past the buffer's size fails with OutOfBounds and changes nothing; a CPU-visible target gets exactly the bytes at block start + offset, with the protocol's effects, and nothing is recorded or requested, and no other memory is written; otherwise the device-local path is taken and the target memory is untouched |
| Upload.WrappingOutOfBounds | src/upload.rs:56 | the bounds test with the sum wrapped to 64 bits agrees with the exact test whenever the sum fits in 64 bits |
| Upload.WrappedRangePassesCheck | src/upload.rs:56-61 | when offset + len wraps to at most the size, the wrapping test accepts a range that ends past the buffer |
| Upload.LastOffsetOfEmptyBufferAccepted | src/upload.rs:56-61 | one byte at offset 2^64 - 1 of an empty buffer passes the wrapping test |
| Upload.CheckedOutOfBounds | src/upload.rs:56-61 | the bounds test with a checked 64-bit addition refuses exactly the ranges whose end is past the size |
| Upload.Upload.UploadImage | src/upload.rs:80-124 | exactly one staging request of data-length bytes whatever the threshold; on failure the allocation error is returned and nothing is recorded; on success the staging buffer holds the data at its start, and one buffer-to-image copy with buffer offset, width and height 0 and the given layout, layers, offset and extent is appended, and the staging buffer is returned |
| Upload.CreateStaging | src/upload.rs:91-109 | one short-lived CPU-visible transfer-source request of data-length bytes; on success the data is written at offset 0 of the staging block through one write protocol; on failure the device is untouched |
| Mem.Allocator.CreateBuffer | src/upload.rs:91-98 | the request is logged and the allocator's answer is returned |
| Upload.Upload.Uploads | src/upload.rs:126-134 | with a current buffer: it is finished, queued at the back with the frame, and returned with the family; without one: nothing is returned and the queue is unchanged; afterwards there is no current buffer; order is kept when the frame is at least every queued tag |
| Upload.FinishPreservesConsistent | src/upload.rs:127-129 | finishing the current buffer and queueing it keeps the context consistent |
| Upload.Upload.Clear | src/upload.rs:136-145 | the queue and the free stack become what Drain gives: the recycled buffers are reset and pushed onto the free stack in queue order, the retained entries remain; pool and current buffer are unchanged; consistency and order are kept |
| Upload.ClearPreservesConsistent | src/upload.rs:136-145 | resetting and pushing the drained buffers onto the free stack keeps the context consistent |
| Upload.ClearKeepsIds | src/upload.rs:136-145 | the ids held across current, free and in flight are the same multiset after the drain |
| InFlightQueue.Drain | src/upload.rs:137-144 | the `while let` loop of `clear` as a function: the recycled and retained entries together account for every queued entry, and a retained queue starts with an entry tagged with the watermark |
| InFlightQueue.DrainIsRetiredPrefix | src/upload.rs:136-145 | the longest front prefix with tags below the watermark is recycled, in order; the entry that stops it stays at the front with its tag replaced by the watermark, and later entries are untouched |
| InFlightQueue.DrainConservesBuffers | src/upload.rs:136-145 | the recycled buffers followed by the retained ones are exactly the queue's buffers; the total count is preserved |
| InFlightQueue.DrainPreservesOrder | src/upload.rs:137-141 | an ordered queue stays ordered after the drain |
| InFlightQueue.DrainRecyclesExactlyRetired | src/upload.rs:137-143 | on an ordered queue an entry is recycled if and only if its tag is below the watermark |
| InFlightQueue.RewrittenTagRecycledEarly | src/upload.rs:138-140 | after a drain at watermark `first` has kept the front entry back, any higher watermark recycles that entry, whatever frame it was submitted on |
| InFlightQueue.RewrittenTagRecycledBeforeItsFrame | src/upload.rs:138-140 | an entry submitted on a frame at or above both watermarks is kept back by the first clear and recycled by the second; the drain that keeps tags recycles nothing on the second clear |
| InFlightQueue.FrameSevenRecycledAtWatermarkSeven | src/upload.rs:138-140 | the queue `[(b, 7)]` cleared at 6 then at 7 recycles `b` as written, and recycles nothing with tags kept |
| InFlightQueue.DrainKeepingTagsRecyclesTheSame | src/upload.rs:137-143 | the drain that keeps the tag recycles the same buffers in the same order as the drain as written |
| InFlightQueue.DrainKeepingTagsLeavesSuffix | src/upload.rs:137-143 | the drain that keeps the tag recycles a prefix with tags below the watermark and leaves the rest of the queue as it was |
| InFlightQueue.DrainKeepingTagsNeverRecyclesEarly | src/upload.rs:137-143 | with tags kept, a second drain recycles only entries whose submission frame is below its own watermark |
| Upload.Upload.GetCommandBuffer | src/upload.rs:147-165 | keeps an existing current buffer unchanged; otherwise takes the last free buffer, or a new one from the pool (created on first need); the chosen buffer is begun and made current with its commands as they were; consistency is kept |
| Upload.PoolCreatedOnlyOnFirstNeed | src/upload.rs:155-161 | an existing pool is kept and hands out at most one more buffer; a pool appears only when there is no current buffer and nothing free, as a new pool of the family that has handed out buffer 0; pop or reuse leaves the pool as it was |
| Upload.AcquirePreservesConsistent | src/upload.rs:155-164 | acquiring a recording buffer keeps every id held exactly once and the statuses right |
| Upload.Upload.Record | src/upload.rs:176-177 | acquires a buffer as get_command_buffer does and appends exactly the given command to its log |
| Upload.Upload.UploadDeviceLocalBuffer | src/upload.rs:167-210 | up to the threshold: one inline update command with the target, offset and data, result None, no allocation; above it: one staging request of data-length bytes, and on failure the error and nothing recorded; on success the staging buffer holds the data at its start, one copy with src 0, dst offset and size data-length is appended, and the staging buffer is returned |
| RawMemory.Overwrite | src/upload.rs:241-242 | the length is kept; the bytes at positions [at, at + len) are the data and all other bytes are unchanged |
| RawMemory.UpdateCpuVisibleBlock | src/upload.rs:221-246 | the block's memory becomes the old contents with data written at block start + offset; the device log gains exactly the write protocol's effects over that range |
| RawMemory.WriteProtocol | src/upload.rs:228-245 | all effects cover the same range; map and write happen once each; invalidate and flush are issued, once each, if and only if the memory is not coherent; map precedes invalidate, invalidate precedes the write, the write precedes flush |
| Hal.Device.MapMemory | src/upload.rs:235-237 | one map effect over the range is logged |
| Hal.Device.InvalidateMappedMemoryRange | src/upload.rs:238-240 | one invalidate effect over the range is logged |
| Hal.Device.FlushMappedMemoryRange | src/upload.rs:243-245 | one flush effect over the range is logged |
| Scenario.SmallUploadTravelsInline | src/upload.rs:175-178 | with threshold 64, 32 bytes at offset 0 of a device-local buffer give None, no allocation request and one inline update command |
| Scenario.RangePastEndRefused | src/upload.rs:56-61 | 128 bytes at offset 100 of a 200-byte buffer give OutOfBounds, with no request and no current buffer |
| Scenario.LargeUploadIsStaged | src/upload.rs:180-208 | 128 bytes at offset 0 of a 256-byte device-local buffer give one 128-byte staging request, the staging buffer, and one copy from 0 to 0 of 128 bytes |
| Scenario.SecondUploadsReturnsNothing | src/upload.rs:126-134 | after one recorded command, the first uploads returns the finished buffer with that command and the family, and the second returns nothing |

## Left out

- Backend calls are abstract effects. Command pool creation, buffer allocation, begin, finish,
  reset and recording change datatype values. Map, invalidate and flush append to the device's
  effect log. The backend's implementations are foreign code.
- Allocator internals are not modelled (`SmartAllocator`, `SmartBlock`, `Item`). The property set
  of a block is a field of the block. `create_buffer`'s result is an input of each upload. Each
  upload's requires clause states what the allocator promises of a buffer it hands out.
- The raw mapped pointer and `from_raw_parts_mut` are not modelled. The write is an in-place copy
  into the memory's byte array.
- The panic of `.expect("Expect to be mapped")` is not modelled. Mapping is assumed to succeed,
  because a failure there is fatal and external.
- Error messages and error chaining are left out. Only the distinction between `OutOfBounds` and a
  failed staging allocation is kept, and the allocation error is carried along.
- Rust lifetimes, the `&mut` borrow returned by `get_command_buffer` and `uploads`, and the generic
  `Backend` parameter are left out. `uploads` returns the finished buffer value together with the family.
- Upload.Upload.UploadBuffer: offsets, sizes and frames are unbounded naturals. Its bounds test is
  the exact one and does not model the 64-bit wrap of `offset + data.len()`; the wrap is modelled
  separately in `WrappingOutOfBounds` (see Findings).
- The size and alignment limits that a backend puts on inline buffer updates are not modelled. The
  model records the command as the source issues it.
- The `debug_assert!` in `update_cpu_visible_block` is not modelled as a check. It is the
  precondition of `RawMemory.UpdateCpuVisibleBlock`, which every caller proves.

## Findings

| source | as written | input that shows it | evidently intended | confidence | as-written member | corrected member |
|---|---|---|---|---|---|---|
| src/upload.rs:138-140 | `clear` puts the first retained entry back with its tag replaced by the watermark `ongoing` | queue `[(b, 7)]`; `clear(6)` keeps `b` but retags it 6; then `clear(7)` recycles `b`, although frame 7 is still ongoing | keep the entry's own frame tag, so that a buffer is recycled only after its own frame retires | medium, not executed | InFlightQueue.RewrittenTagRecycledBeforeItsFrame | InFlightQueue.DrainKeepingTagsNeverRecyclesEarly |
| src/upload.rs:56 | `offset + data.len() as u64` is compared with the size after a 64-bit addition, which wraps in builds without overflow checks | size 0, offset 2^64 - 1, one byte: the sum wraps to 0 and the range is accepted | a range whose end does not fit in 64 bits is out of bounds (a checked addition) | medium, not executed | Upload.LastOffsetOfEmptyBufferAccepted | Upload.CheckedOutOfBounds |

The class keeps the tag rewrite as written, because the externally observable behaviour of
`Upload.Upload.Clear` is the source's. The corrected drain `InFlightQueue.DrainKeepingTags`
recycles the same buffers as the drain as written on any one call
(`DrainKeepingTagsRecyclesTheSame`). The two differ only across successive calls. The bounds test
of `Upload.Upload.UploadBuffer` on unbounded naturals is the corrected test `CheckedOutOfBounds` for
every 64-bit size.
