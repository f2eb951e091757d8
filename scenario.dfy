/**
 End-to-end runs of an upload context with a 64-byte staging threshold, each from a fresh context:
 a small write to a device-local buffer travels inline, a range past the end of a buffer is refused,
 and a large write goes through one staging buffer and one copy.
 */
module Scenario {
  import opened Wrappers
  import opened Hal
  import opened Mem
  import opened Upload

  function DeviceLocal(): Properties {
    Properties(cpuVisible := false, coherent := false)
  }

  /** 32 bytes at offset 0 of a device-local buffer: no staging request, one inline update. */
  method SmallUploadTravelsInline(family: QueueFamilyId)
    returns (r: Result<Option<Buffer>, Error>, requests: seq<BufferRequest>, commands: seq<Command>)
    ensures r == Success(None)
    ensures requests == []
    ensures commands == [UpdateBuffer(1, 0, seq(32, _ => 0))]
  {
    var upload := new Upload(64, family);
    var device := new Device();
    var allocator := new Allocator();
    var memory := new byte[256];
    var target := Buffer(1, 256, Block(memory, 0, 256, DeviceLocal()));
    r := upload.UploadBuffer(device, allocator, target, 0, seq(32, _ => 0), Failure(AllocError(0)));
    requests := allocator.requests;
    commands := upload.cbuf.value.commands;
  }

  /** 128 bytes at offset 100 of a 200-byte buffer: refused, nothing requested or recorded. */
  method RangePastEndRefused(family: QueueFamilyId)
    returns (r: Result<Option<Buffer>, Error>, requests: seq<BufferRequest>, current: Option<CommandBuffer>)
    ensures r == Failure(OutOfBounds)
    ensures requests == [] && current == None
  {
    var upload := new Upload(64, family);
    var device := new Device();
    var allocator := new Allocator();
    var memory := new byte[256];
    var target := Buffer(2, 200, Block(memory, 0, 256, DeviceLocal()));
    r := upload.UploadBuffer(device, allocator, target, 100, seq(128, _ => 0), Failure(AllocError(0)));
    requests := allocator.requests;
    current := upload.cbuf;
  }

  /**
   128 bytes at offset 0 of a 256-byte device-local buffer: one staging request of 128 bytes, the
   staging buffer handed back, one copy of 128 bytes from its start to offset 0.
   */
  method LargeUploadIsStaged(family: QueueFamilyId)
    returns (r: Result<Option<Buffer>, Error>, requests: seq<BufferRequest>, commands: seq<Command>)
    ensures r.Success? && r.value.Some? && r.value.value.handle == 3 && r.value.value.size == 128
    ensures requests == [StagingRequest(128)]
    ensures commands == [CopyBuffer(3, 1, BufferCopy(0, 0, 128))]
  {
    var upload := new Upload(64, family);
    var device := new Device();
    var allocator := new Allocator();
    var memory := new byte[256];
    var target := Buffer(1, 256, Block(memory, 0, 256, DeviceLocal()));
    var stagingMemory := new byte[128];
    var staging := Buffer(3, 128, Block(stagingMemory, 0, 128, Properties(cpuVisible := true, coherent := false)));
    r := upload.UploadBuffer(device, allocator, target, 0, seq(128, _ => 0), Success(staging));
    requests := allocator.requests;
    commands := upload.cbuf.value.commands;
  }

  /** After something is recorded, `uploads` hands the buffer back once; called again, it returns nothing. */
  method SecondUploadsReturnsNothing(family: QueueFamilyId, command: Command)
    returns (first: Option<(CommandBuffer, QueueFamilyId)>, second: Option<(CommandBuffer, QueueFamilyId)>)
    ensures first.Some? && first.value.0.commands == [command] && first.value.0.status == Executable
    ensures first.value.1 == family
    ensures second == None
  {
    var upload := new Upload(64, family);
    upload.Record(command);
    first := upload.Uploads(5);
    second := upload.Uploads(6);
  }
}
